/**
 * The transaction record of the single-account tracker, the 1-based numbered
 * listing shown by "View Transactions", and removal at a position.
 */
module Records {

  /**
   * One ledger entry. `amount` is in cents: positive for income, negative for
   * an expense. `date` is the text the user typed, normally YYYY-MM-DD.
   */
  datatype Transaction = Transaction(amount: int, description: string, category: string, date: string)

  /** One numbered line of the listing. */
  datatype Row = Row(number: int, transaction: Transaction)

  /** What "View Transactions" shows. */
  datatype Listing = NoTransactions | Rows(rows: seq<Row>)

  /** Python's enumerate with a start value: each element paired with its running number. */
  function Enumerate(s: seq<Transaction>, start: int): (r: seq<Row>)
    ensures |r| == |s|
  {
    if s == [] then [] else [Row(start, s[0])] + Enumerate(s[1..], start + 1)
  }

  /** Element k of the enumeration is element k of the input, numbered start + k. */
  lemma {:induction false} EnumerateAt(s: seq<Transaction>, start: int, k: nat)
    requires k < |s|
    ensures Enumerate(s, start)[k] == Row(start + k, s[k])
  {
    if k > 0 {
      EnumerateAt(s[1..], start + 1, k - 1);
    }
  }

  /** The whole enumeration, element by element. */
  lemma EnumerateAll(s: seq<Transaction>, start: int)
    ensures forall k :: 0 <= k < |s| ==> Enumerate(s, start)[k] == Row(start + k, s[k])
  {
    forall k | 0 <= k < |s| ensures Enumerate(s, start)[k] == Row(start + k, s[k]) {
      EnumerateAt(s, start, k);
    }
  }

  /**
   * view_transactions: an empty ledger shows "no transactions"; otherwise every
   * transaction is shown once, in ledger order, numbered from 1.
   */
  function View(data: seq<Transaction>): (r: Listing)
    ensures r.NoTransactions? <==> data == []
    ensures r.Rows? ==> |r.rows| == |data|
    ensures r.Rows? ==> forall k :: 0 <= k < |data| ==> r.rows[k] == Row(k + 1, data[k])
  {
    if data == [] then NoTransactions
    else
      EnumerateAll(data, 1);
      Rows(Enumerate(data, 1))
  }

  /**
   * Python's `list.pop(i)` seen from the list: the element at `i` is gone and
   * the others keep their order.
   */
  function RemoveAt(s: seq<Transaction>, i: nat): (r: seq<Transaction>)
    requires i < |s|
    ensures |r| == |s| - 1
    ensures forall k :: 0 <= k < i ==> r[k] == s[k]
    ensures forall k :: i <= k < |r| ==> r[k] == s[k + 1]
    ensures multiset(r) + multiset{s[i]} == multiset(s)
  {
    assert s == s[..i] + [s[i]] + s[i + 1..];
    s[..i] + s[i + 1..]
  }

  /**
   * The number shown on a row of the listing selects that row's transaction:
   * it passes the range check of delete_transaction, and popping at
   * number - 1 removes one occurrence of the transaction shown and nothing else.
   */
  lemma ShownNumberSelectsRow(data: seq<Transaction>, k: nat)
    requires k < |data|
    ensures View(data).Rows?
    ensures var row := View(data).rows[k];
      1 <= row.number <= |data| && data[row.number - 1] == row.transaction &&
      multiset(RemoveAt(data, row.number - 1)) + multiset{row.transaction} == multiset(data)
  {
  }
}
