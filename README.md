# BudgetApp command-line tracker, modelled in Dafny

This project models the single-account budget tracker of `tracker.py`. The
tracker keeps an in-memory list of transactions. Each transaction has an
amount, a description, a category and a date. The menu can add a
transaction, list the transactions numbered from 1, report the balance, clear
the list after a typed confirmation, and delete the transaction at a chosen
number. Every change is written straight back to the data file as a full
snapshot.

Modules:

- `Records` (`records.dfy`): the `Transaction` record, the numbered listing
  (`Enumerate`, `View`) and removal at a position (`RemoveAt`).
- `Balance` (`balance.dfy`): the sums behind the balance report (`Total`,
  `Credits`, `Debits`, `Income`, `Expenses`) and `CalculateBalance`.
- `Confirmation` (`confirmation.dfy`): Python's `strip` and `lower` as used by
  the clear step, and the "yes" test, `IsAffirmative`.
- `Tracker` (`tracker.dfy`): the class `Ledger`. It holds the list (`data`)
  and the data file's content (`stored`). Its methods `Add`, `Clear` and
  `Delete` change the list in place, as the Python functions do.
- `Wrappers` (`wrappers.dfy`): `Option`.
- `Tracker.Session` (`tracker.dfy`) is a worked example, not a model of any source function. It adds two transactions, views them, checks the balance, deletes the row shown first and declines to clear, using only the contracts above.

Modelling choices:

- Amounts are whole cents (`int`), not floats.
- Each `input()` becomes a parameter:
  - `Add` takes the parsed amount, the description, the category, the typed date and today's date;
  - `Delete` takes `Option<int>`, where `None` is an answer that `int()` rejects;
  - `Clear` takes the raw answer text.
- Each operation returns a value instead of printing.
- The data file is modelled as its content, an `Option<seq<Transaction>>`. `None` means missing or not valid JSON.
- Saving a snapshot is the assignment `stored := Some(data)`. It happens on exactly the paths where `tracker.py` calls `save_data`.
- `Ledger.Saved()` says the file holds the in-memory list. Every successful change ends with `Saved()`. Every no-op leaves both the list and the file unchanged.
- `tracker.py` does not catch the `ValueError` that `float()` raises for an amount that does not parse (tracker.py:21). The program stops before anything is appended. So `Add` takes an already-parsed amount.
- An empty ledger reports "nothing to delete" before any number is read (tracker.py:68-70).

## Model

| member | source | states |
|---|---|---|
| `Tracker.Ledger.Open` | tracker.py:7-13 | the ledger starts as the saved list when the file holds valid JSON and as the empty list when it is missing or not valid JSON; the file is not touched |
| `Tracker.EffectiveDate` | tracker.py:24 | a typed date is kept as typed; a blank answer becomes today's date; the date is blank only when both are |
| `Tracker.Ledger.Add` | tracker.py:20-33 | the new record (today's date when the typed date is empty) is appended: length grows by one, it is the last element, all earlier elements are unchanged, and the file then holds the ledger |
| `Tracker.Ledger.Clear` | tracker.py:57-64 | the list is emptied and saved exactly when the stripped, lower-cased answer is "yes"; any other answer changes neither the list nor the file |
| `Tracker.Ledger.Delete` | tracker.py:67-81 | empty ledger: "nothing to delete", no change; a number in 1..length removes and reports the element at number - 1 and saves; out of range or not a number: the matching report, list and file unchanged |
| `Records.Enumerate` | tracker.py:42 | enumeration yields one row per element |
| `Records.EnumerateAt` | tracker.py:42 | row k of an enumeration from `start` is element k numbered `start + k` |
| `Records.EnumerateAll` | tracker.py:42 | the same, for every row at once |
| `Records.View` | tracker.py:37-43 | "no transactions" exactly for the empty ledger; otherwise one row per transaction, in ledger order, row k numbered k + 1 |
| `Records.RemoveAt` | tracker.py:75 | popping position i drops exactly that element: length minus one, earlier elements in place, later elements shifted down by one, multiset of the rest plus the popped one is the original |
| `Records.ShownNumberSelectsRow` | tracker.py:42-43 | the number shown on a row passes the delete range check, and popping at that number minus one removes one occurrence of the transaction shown on the row and nothing else (tracker.py:74-75) |
| `Balance.Credits` | tracker.py:50 | every transaction with a positive amount is kept exactly as often as it occurs in the ledger, and no other transaction is kept |
| `Balance.Debits` | tracker.py:51 | every transaction with a negative amount is kept exactly as often as it occurs in the ledger, and no other transaction is kept |
| `Balance.TotalOfCredits` | tracker.py:50 | a sum of positive amounts is non-negative, and positive when non-empty |
| `Balance.TotalOfDebits` | tracker.py:51 | a sum of negative amounts is non-positive, and negative when non-empty |
| `Balance.HasCredits` | tracker.py:50 | the income filter keeps something exactly when some amount is positive |
| `Balance.HasDebits` | tracker.py:51 | the expense filter keeps something exactly when some amount is negative |
| `Balance.Income` | tracker.py:50 | income is at least 0, and positive exactly when some amount is positive |
| `Balance.Expenses` | tracker.py:51 | expenses are at most 0, and negative exactly when some amount is negative |
| `Balance.NetIsTotal` | tracker.py:50-54 | income plus expenses is the sum of all amounts, so zero amounts and the sign split lose nothing |
| `Balance.CalculateBalance` | tracker.py:46-54 | "no data" exactly for the empty ledger; otherwise income = sum of the positive amounts (at least 0), expenses shown = minus the sum of the negative amounts (at least 0), net = sum of all amounts = income - shown expenses |
| `Balance.TotalConcat` | tracker.py:50-54 | the sum of all amounts splits over concatenation |
| `Balance.TotalAppend` | tracker.py:32 | appending a transaction adds its amount to the net balance |
| `Balance.TotalRemoveAt` | tracker.py:75 | deleting the transaction at a position takes its amount off the net balance |
| `Balance.ZeroLedgerIsNotNoData` | tracker.py:47-54 | every non-empty ledger whose amounts are all zero reports the figures 0, 0, 0, which is a different outcome from "no data" |
| `Balance.SampleBalance` | tracker.py:50-54 | an income of 100.00 and an expense of 40.00 give income 100.00, expenses 40.00 and net 60.00 |
| `Confirmation.TrimLeft` | tracker.py:58 | the result is a suffix of the input, everything dropped is white space, and the result does not start with white space |
| `Confirmation.TrimRight` | tracker.py:58 | the result is a prefix of the input, everything dropped is white space, and the result does not end with white space |
| `Confirmation.LeadingSpaces` | tracker.py:58 | strip removes no more characters from the front than the answer has |
| `Confirmation.Strip` | tracker.py:58 | the result is a contiguous slice of the answer, only white space is cut on either side, and the result neither starts nor ends with white space |
| `Confirmation.Lower` | tracker.py:58 | same length, each character lower-cased |
| `Confirmation.IsSpace` | tracker.py:58 | the white space strip removes: no printable ASCII character is white space, and space, tab, newline, carriage return, vertical tab and form feed are |
| `Confirmation.LowerIsYes` | tracker.py:58-59 | a word lower-cases to "yes" exactly when it spells "yes" in any mixture of upper and lower case |
| `Confirmation.IsAffirmative` | tracker.py:58-59 | an answer confirms exactly when its stripped form spells "yes" in any mixture of upper and lower case |
| `Confirmation.TrimLeftPadding` | tracker.py:58 | leading white space before a word that starts with a non-space character is removed completely |
| `Confirmation.TrimRightPadding` | tracker.py:58 | trailing white space after a word that ends with a non-space character is removed completely |
| `Confirmation.StripUnpadded` | tracker.py:58 | a word that neither starts nor ends with white space is unchanged by strip |
| `Confirmation.PaddedYesIsAffirmative` | tracker.py:58-59 | any casing of "yes" with any white space around it confirms |
| `Confirmation.SampleAffirmativeAnswers` | tracker.py:58-59 | " YES " and "\tYes " confirm |
| `Confirmation.SampleNegativeAnswers` | tracker.py:58-59 | "y", "no", "yes please" and the empty answer do not confirm |

## Left out

- The data file's I/O and the JSON encoding (tracker.py:7-17). Only a missing file and invalid JSON are caught (tracker.py:11). Any other read failure, such as a file that cannot be opened or decoded, stops the program before a ledger exists; that is outside this model. The file is modelled as its decoded content. This model does not cover a file that is valid JSON but not a list of records. Depending on its shape, later operations raise `KeyError`, `TypeError` or `AttributeError`. A falsy value such as `{}` or `null` acts as an empty ledger until a change fails.
- Terminal input and output (tracker.py:21-24, 34, 39, 43, 48, 52-54, 62-64, 69, 71, 77-81). Prompts become parameters. Messages become returned values. `Ledger.Delete` does not return the listing that delete_transaction prints before asking for a number (tracker.py:71); that listing is `View` of the same list. The `.2f` currency formatting and the text of each listing line are not modelled.
- Parsing of the typed amount and index (tracker.py:21, 73). The model takes the parsed value. A non-integer index is `None`. A non-numeric amount raises an exception that `tracker.py` does not catch; the program stops, which is outside this model.
- Today's date (tracker.py:24). It is a parameter of `Add`.
- Floating-point amounts (tracker.py:21). They are whole cents here. This also leaves out rounding, NaN and infinities.
- The interactive menu loop (tracker.py:84-113). It only dispatches to the operations above.
- `Confirmation.Lower`: folds only the letters A to Z, where Python's `lower` folds all of Unicode. The model assumes no other character lower-cases to "y", "e" or "s", so the "yes" test is unaffected.
- The multi-account desktop ledger is not part of this model.
