/**
 * The balance report of the single-account tracker: income is the sum of the
 * positive amounts, expenses the sum of the negative ones, and the net
 * balance their sum.
 */
module Balance {

  import opened Records

  /** The sum of all amounts. */
  function Total(s: seq<Transaction>): int
  {
    if s == [] then 0 else s[0].amount + Total(s[1..])
  }

  /**
   * The transactions with a strictly positive amount: each one kept as often
   * as it occurs in the ledger, and nothing else.
   */
  function Credits(s: seq<Transaction>): (r: seq<Transaction>)
    ensures forall k :: 0 <= k < |r| ==> r[k].amount > 0
    ensures forall u :: multiset(r)[u] == if u.amount > 0 then multiset(s)[u] else 0
  {
    if s == [] then []
    else
      assert s == [s[0]] + s[1..];
      assert forall t :: t in s ==> t == s[0] || t in s[1..];
      if s[0].amount > 0 then [s[0]] + Credits(s[1..]) else Credits(s[1..])
  }

  /**
   * The transactions with a strictly negative amount: each one kept as often
   * as it occurs in the ledger, and nothing else.
   */
  function Debits(s: seq<Transaction>): (r: seq<Transaction>)
    ensures forall k :: 0 <= k < |r| ==> r[k].amount < 0
    ensures forall u :: multiset(r)[u] == if u.amount < 0 then multiset(s)[u] else 0
  {
    if s == [] then []
    else
      assert s == [s[0]] + s[1..];
      assert forall t :: t in s ==> t == s[0] || t in s[1..];
      if s[0].amount < 0 then [s[0]] + Debits(s[1..]) else Debits(s[1..])
  }

  /** A sum of positive amounts is not negative. */
  lemma {:induction false} TotalOfCredits(s: seq<Transaction>)
    requires forall k :: 0 <= k < |s| ==> s[k].amount > 0
    ensures Total(s) >= 0
    ensures s != [] ==> Total(s) > 0
  {
    if s != [] {
      TotalOfCredits(s[1..]);
    }
  }

  /** A sum of negative amounts is not positive. */
  lemma {:induction false} TotalOfDebits(s: seq<Transaction>)
    requires forall k :: 0 <= k < |s| ==> s[k].amount < 0
    ensures Total(s) <= 0
    ensures s != [] ==> Total(s) < 0
  {
    if s != [] {
      TotalOfDebits(s[1..]);
    }
  }

  /** Some transaction is kept as a credit exactly when some amount is positive. */
  lemma HasCredits(s: seq<Transaction>)
    ensures Credits(s) != [] <==> exists k :: 0 <= k < |s| && s[k].amount > 0
  {
    var c := Credits(s);
    if c != [] {
      assert c[0] in multiset(s);
      var k :| 0 <= k < |s| && s[k] == c[0];
    }
    if exists k :: 0 <= k < |s| && s[k].amount > 0 {
      var k :| 0 <= k < |s| && s[k].amount > 0;
      assert s[k] in c;
    }
  }

  /** Some transaction is kept as a debit exactly when some amount is negative. */
  lemma HasDebits(s: seq<Transaction>)
    ensures Debits(s) != [] <==> exists k :: 0 <= k < |s| && s[k].amount < 0
  {
    var d := Debits(s);
    if d != [] {
      assert d[0] in multiset(s);
      var k :| 0 <= k < |s| && s[k] == d[0];
    }
    if exists k :: 0 <= k < |s| && s[k].amount < 0 {
      var k :| 0 <= k < |s| && s[k].amount < 0;
      assert s[k] in d;
    }
  }

  /** Income: the sum over the transactions whose amount is strictly positive. */
  function Income(s: seq<Transaction>): (r: int)
    ensures r >= 0
    ensures r > 0 <==> exists k :: 0 <= k < |s| && s[k].amount > 0
  {
    TotalOfCredits(Credits(s));
    HasCredits(s);
    Total(Credits(s))
  }

  /** Expenses: the sum over the transactions whose amount is strictly negative. */
  function Expenses(s: seq<Transaction>): (r: int)
    ensures r <= 0
    ensures r < 0 <==> exists k :: 0 <= k < |s| && s[k].amount < 0
  {
    TotalOfDebits(Debits(s));
    HasDebits(s);
    Total(Debits(s))
  }

  /** Every amount is counted exactly once: income plus expenses is the sum of all amounts. */
  lemma {:induction false} NetIsTotal(s: seq<Transaction>)
    ensures Income(s) + Expenses(s) == Total(s)
  {
    if s != [] {
      NetIsTotal(s[1..]);
      var t := s[0];
      if t.amount > 0 {
        assert Credits(s) == [t] + Credits(s[1..]);
        assert ([t] + Credits(s[1..]))[1..] == Credits(s[1..]);
      } else if t.amount < 0 {
        assert Debits(s) == [t] + Debits(s[1..]);
        assert ([t] + Debits(s[1..]))[1..] == Debits(s[1..]);
      }
    }
  }

  /** The figures calculate_balance reports. */
  datatype Report = NoData | Figures(income: int, expenses: int, net: int)

  /**
   * calculate_balance: an empty ledger reports "no data" rather than zeros;
   * otherwise the income, the magnitude of the expenses, and the net
   * balance, which is the sum of every amount.
   */
  function CalculateBalance(data: seq<Transaction>): (r: Report)
    ensures r.NoData? <==> data == []
    ensures r.Figures? ==> r.income == Income(data) && r.income >= 0
    ensures r.Figures? ==> r.expenses == -Expenses(data) && r.expenses >= 0
    ensures r.Figures? ==> r.net == Total(data) && r.net == r.income - r.expenses
  {
    if data == [] then NoData
    else
      var income := Income(data);
      var expenses := Expenses(data);
      NetIsTotal(data);
      Figures(income, if expenses < 0 then -expenses else expenses, income + expenses)
  }

  /** Sums split over concatenation. */
  lemma {:induction false} TotalConcat(a: seq<Transaction>, b: seq<Transaction>)
    ensures Total(a + b) == Total(a) + Total(b)
  {
    if a == [] {
      assert a + b == b;
    } else {
      assert (a + b)[1..] == a[1..] + b;
      TotalConcat(a[1..], b);
    }
  }

  /** Appending a transaction adds its amount to the net balance. */
  lemma TotalAppend(s: seq<Transaction>, t: Transaction)
    ensures Total(s + [t]) == Total(s) + t.amount
  {
    TotalConcat(s, [t]);
    assert Total([t]) == t.amount + Total([]);
  }

  /** Removing the transaction at position i takes its amount off the net balance. */
  lemma TotalRemoveAt(s: seq<Transaction>, i: nat)
    requires i < |s|
    ensures Total(RemoveAt(s, i)) == Total(s) - s[i].amount
  {
    var pre, post := s[..i], s[i + 1..];
    assert s == pre + ([s[i]] + post);
    assert RemoveAt(s, i) == pre + post;
    assert ([s[i]] + post)[1..] == post;
    TotalConcat(pre, [s[i]] + post);
    TotalConcat(pre, post);
  }

  /** A non-empty ledger whose amounts are all zero reports zero figures, which differs from "no data". */
  lemma ZeroLedgerIsNotNoData(data: seq<Transaction>)
    requires data != []
    requires forall k :: 0 <= k < |data| ==> data[k].amount == 0
    ensures CalculateBalance(data) == Figures(0, 0, 0)
  {
  }

  /** Income of 100.00 and an expense of 40.00 give income 100.00, expenses 40.00, net 60.00. */
  lemma SampleBalance(d1: string, c1: string, day1: string, d2: string, c2: string, day2: string)
    ensures CalculateBalance([Transaction(10000, d1, c1, day1), Transaction(-4000, d2, c2, day2)])
      == Figures(10000, 4000, 6000)
  {
    var s := [Transaction(10000, d1, c1, day1), Transaction(-4000, d2, c2, day2)];
    assert s[1..][1..] == [];
    assert Credits(s) == [s[0]];
    assert Debits(s) == [s[1]];
  }
}
