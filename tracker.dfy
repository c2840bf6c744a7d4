/**
 * The command-line tracker's ledger: the in-memory list of transactions that
 * the menu operations change in place, and the snapshot last written to the
 * data file.
 */
module Tracker {

  import opened Wrappers
  import opened Records
  import opened Confirmation
  import opened Balance

  /** The date of a new transaction: a typed date is kept as typed, a blank answer becomes today's date. */
  function EffectiveDate(entered: string, today: string): (date: string)
    ensures date == entered || date == today
    ensures date == today <== entered == ""
    ensures date == entered <== entered != ""
    ensures date == "" <==> entered == "" && today == ""
  {
    if entered == "" then today else entered
  }

  /** What delete_transaction reports. */
  datatype DeleteOutcome =
    | NothingToDelete           // the ledger was empty; no number was asked for
    | Deleted(removed: Transaction)
    | InvalidSelection          // a number outside 1..length
    | NotANumber                // the answer did not parse as an integer

  class Ledger {
    /** The transactions, in insertion order. */
    var data: seq<Transaction>
    /** The content of the data file: None while it is missing or not valid JSON. */
    var stored: Option<seq<Transaction>>

    /** The data file holds exactly the in-memory ledger. */
    predicate Saved()
      reads this
    {
      stored == Some(data)
    }

    /**
     * load_data: the saved list when the file holds valid JSON, otherwise an empty
     * ledger; the file itself is left as it is.
     */
    constructor Open(file: Option<seq<Transaction>>)
      ensures stored == file
      ensures file.Some? ==> data == file.value && Saved()
      ensures file.None? ==> data == []
    {
      stored := file;
      data := if file.Some? then file.value else [];
    }

    /**
     * add_transaction: the new record goes at the end, nothing before it
     * changes, and the whole ledger is written out.
     */
    method Add(amount: int, description: string, category: string, enteredDate: string, today: string)
      returns (t: Transaction)
      modifies this
      ensures t == Transaction(amount, description, category, EffectiveDate(enteredDate, today))
      ensures |data| == |old(data)| + 1 && data[|data| - 1] == t
      ensures data[..|old(data)|] == old(data)
      ensures Saved()
    {
      t := Transaction(amount, description, category, EffectiveDate(enteredDate, today));
      data := data + [t];
      assert data[..|old(data)|] == old(data);
      stored := Some(data);
    }

    /**
     * clear_transactions: the ledger is emptied and written out exactly when
     * the answer, stripped and lower-cased, is "yes"; otherwise nothing changes.
     */
    method Clear(answer: string) returns (cleared: bool)
      modifies this
      ensures cleared <==> IsAffirmative(answer)
      ensures cleared ==> data == [] && Saved()
      ensures !cleared ==> data == old(data) && stored == old(stored)
    {
      cleared := Lower(Strip(answer)) == "yes";
      if cleared {
        data := [];
        stored := Some(data);
      }
    }

    /**
     * delete_transaction: on an empty ledger nothing is asked and nothing
     * changes; a number in 1..length pops the transaction at number - 1,
     * reports it, and writes the ledger out; any other number, or an answer
     * that is not a number, changes nothing.
     */
    method Delete(choice: Option<int>) returns (outcome: DeleteOutcome)
      modifies this
      ensures old(data) == [] ==> outcome == NothingToDelete
      ensures old(data) != [] && choice.None? ==> outcome == NotANumber
      ensures old(data) != [] && choice.Some? && !(1 <= choice.value <= |old(data)|) ==>
        outcome == InvalidSelection
      ensures outcome.Deleted? <==> choice.Some? && 1 <= choice.value <= |old(data)|
      ensures outcome.Deleted? ==>
        outcome.removed == old(data)[choice.value - 1] &&
        data == RemoveAt(old(data), choice.value - 1) && Saved()
      ensures !outcome.Deleted? ==> data == old(data) && stored == old(stored)
    {
      if data == [] {
        return NothingToDelete;
      }
      match choice
      case None =>
        outcome := NotANumber;
      case Some(index) =>
        if 1 <= index <= |data| {
          var removed := data[index - 1];
          data := RemoveAt(data, index - 1);
          stored := Some(data);
          outcome := Deleted(removed);
        } else {
          outcome := InvalidSelection;
        }
    }
  }

  /**
   * A session: add an income and an expense, view them, check the balance,
   * delete the row shown first, try a number that is no longer shown, and
   * decline to clear.
   */
  method Session(today: string)
  {
    var ledger := new Ledger.Open(None);
    var pay := ledger.Add(10000, "Salary", "Work", "", today);
    var food := ledger.Add(-4000, "Groceries", "Food", "2024-05-01", today);
    assert ledger.data == [pay, food];
    assert pay.date == today;
    assert View(ledger.data).rows[1] == Row(2, food);
    SampleBalance("Salary", "Work", today, "Groceries", "Food", "2024-05-01");
    assert CalculateBalance(ledger.data) == Figures(10000, 4000, 6000);
    var shown := View(ledger.data).rows[0];
    var outcome := ledger.Delete(Some(shown.number));
    assert outcome == Deleted(shown.transaction) && shown.transaction == pay;
    assert ledger.data == [food] && ledger.Saved();
    outcome := ledger.Delete(Some(2));
    assert outcome == InvalidSelection;
    SampleNegativeAnswers();
    var cleared := ledger.Clear("no");
    assert !cleared && ledger.data == [food];
  }
}
