# Receipt category totals — a Dafny model

This project models the one piece of logic in the FinTrack receipt dashboard:
the per-category aggregation inside `show_graph` (`DataBaseLogic.py`). After
fetching every receipt document, `show_graph` returns early when nothing was
fetched or the resulting table is empty; otherwise it walks each row's `items`
list in order and keeps a line item only when its `category` is a non-empty
`str` and its `total_price` is truthy. It then converts the price with
`float(...)` and adds it to the category's entry in a dictionary (creating it
at 0). A price that `float` rejects with `ValueError` produces one warning and
the loop goes on; any other exception leaves the loop for the outer handler,
which shows an error. An empty dictionary gives a "no valid category data"
message; otherwise the dictionary's keys and values become the chart's labels
and sizes and the rows of a summary table.

## Layout

- `wrappers.dfy` — `Option`.
- `receipts.dfy` (module `Receipts`) — the documents as tagged values: a
  category is missing, a `str` or another type; a price is missing, a number,
  a bool, a `str` or another value; a list element is a dict or not; an
  `items` value is a list or some other value. Python truthiness (`Truthy`),
  `float(...)` (`ToFloat`), and `Rows`: the `items` cell of each table row,
  including the NaN that pandas puts in the rows of documents lacking the
  field when another document has it.
- `aggregation.dfy` (module `Aggregation`) — the specification of the loop.
  `Classify` gives each list element a verdict (accepted, skipped, warned,
  crash); `Run` folds the verdicts into the dictionary, its key order and the
  warning log, one loop step per verdict. Independent reference definitions
  say what the result should be: `Takes` (accepted pairs in order), `Warns`,
  `SumFor` (sum of a category's prices), `TotalsOf` (the dictionary those
  sums make), `IndexOf` (first appearance).
  `RunMeaning` proves the fold agrees with them.
- `dashboard.dfy` (module `Dashboard`) — the outcome type, the specification
  `Show`, and `ShowGraph`, the imperative routine: an outer loop over rows
  and, in `AddItems`, the inner loop over one row's items, which update a
  `map<string, real>`, a `seq<string>` of key order and a warning log, with
  early returns for each failure; the loop invariants are stated against
  `Run`. Lemmas say what each outcome means.
- `scenarios.dfy` (module `Scenarios`) — concrete inputs.

`float(str)` is a parameter `parse: string -> Option<real>` (None where
Python raises `ValueError`), and sums are exact `real`s. Warnings are items
appended to a log; the chart and table are the sequences handed to them.

## Behaviour worth knowing

- Categories are not trimmed: `" "` is a non-empty `str`, so it is accepted as
  a category of its own (`Scenarios.BlankCategoryAccepted`).
- `show_graph` returns nothing and counts nothing: skipped items leave no
  trace, and each ValueError shows one warning, which the model keeps as a log.
- The text `"0"` is truthy and creates its category at 0, while the number 0 is
  falsy and is skipped (`Scenarios.ZeroTextCounts`, `Scenarios.FalsyPriceSkipped`).
- A document without `items` contributes nothing only when no document has the
  field, because the row then has no `items` column. Once another document has it, pandas fills the cell with NaN, which
  is truthy and not iterable, and the whole call fails
  (`Dashboard.MissingItemsFails`).
- A list element that is not a dict, or a price such as a list that `float`
  rejects with `TypeError`, does not skip the item: it ends the call through
  the outer handler (`Scenarios.NonDictItemFails`, `Aggregation.ItemEffect`).

## Model

| member | source | states |
|---|---|---|
| `Receipts.Rows` | DataBaseLogic.py:68-80 | one `items` cell per document; no column at all exactly when no document has the field; a document's own value is kept; with the column present, a document lacking the field gets NaN |
| `Receipts.FalsyPrices` | DataBaseLogic.py:86 | the prices `Truthy` rejects in the guard are exactly None, 0, False, "" and the falsy values of other types |
| `Receipts.FloatOutcomes` | DataBaseLogic.py:87-91 | `ToFloat` (`float(price)`): only text raises ValueError, exactly when it does not parse; None and values of other types raise TypeError; a truthy number or bool converts to a non-zero amount |
| `Aggregation.ClassifyCases` | DataBaseLogic.py:83-93 | `Classify`, case by case: a dict the guard rejects is dropped; an accepted item is taken under its own category with the value `float` gives; ValueError is a warning naming the item; a non-dict element or TypeError ends the run; and each of these happens exactly under its condition |
| `Aggregation.StepEffect` | DataBaseLogic.py:87-93 | `Step`, one pass of the loop body: a stopped run stays stopped; a crash stops it with the log as it was; otherwise the log grows only by a warned item; an accepted price changes its own category only (created at 0) and appends it to the key order when new; other verdicts leave dictionary and order alone |
| `Aggregation.QuietRow` | DataBaseLogic.py:80 | a row with no `items` column, an empty list or a falsy value contributes nothing: removing it leaves the verdict stream unchanged |
| `Aggregation.VerdictsAppend` | DataBaseLogic.py:79-81 | rows are processed in order: the items of `a + b` are those of `a` followed by those of `b` |
| `Aggregation.CrashSticks` | DataBaseLogic.py:128-129 | after an exception other than ValueError, nothing later changes the outcome |
| `Aggregation.SumForAppend` | DataBaseLogic.py:89-90 | a category's total over two batches of items is the sum of its totals over each |
| `Aggregation.TotalsOfSnoc` | DataBaseLogic.py:89-90 | accepting one more pair grows its category's sum by the price, starting from 0 when the category is new, and leaves every other category's sum as it was |
| `Aggregation.OrderSnocOld` | DataBaseLogic.py:89-90 | a category seen before leaves the order of first appearance as it is |
| `Aggregation.OrderSnocNew` | DataBaseLogic.py:89-90 | a category not seen before goes to the end, and the order is still that of first appearance |
| `Aggregation.RunWellFormed` | DataBaseLogic.py:89-90 | the dictionary's keys and the recorded insertion order always hold the same categories, none twice |
| `Aggregation.TakeDescribes` | DataBaseLogic.py:89-90 | accepting one (category, price) keeps the dictionary equal to the sums of the accepted pairs and the order equal to their first appearance |
| `Aggregation.RunMeaning` | DataBaseLogic.py:76-93 | without a crash: the dictionary is `TotalsOf` the accepted pairs, so its keys are exactly the accepted categories, each total is the exact sum of that category's accepted prices in order, keys are in order of first accepted appearance, the log is every ValueError item in order |
| `Aggregation.RunCrashes` | DataBaseLogic.py:79-93 | with a crash: the run stops at the first one, keeping only the warnings logged before it |
| `Aggregation.IgnoreIsSilent` | DataBaseLogic.py:86 | an item the guard rejects leaves no trace: neither dictionary, order nor log changes, before or after it |
| `Aggregation.WarningIsRecoverable` | DataBaseLogic.py:87-93 | an item whose price raises ValueError acts as if absent except for exactly one warning logged at that point; later items and rows are aggregated as before |
| `Aggregation.ItemEffect` | DataBaseLogic.py:83-93 | the dictionary changes only for a non-empty `str` category with a truthy price; an accepted price changes only its own category (created at 0), other entries kept; ValueError adds one warning; a non-dict element or a TypeError stops the run |
| `Aggregation.RunOrderIrrelevant` | DataBaseLogic.py:79-90 | in any crash-free run, swapping two adjacent batches of items anywhere in the stream (two receipts, or items within one receipt) leaves the totals unchanged |
| `Aggregation.TotalsOfSwap` | DataBaseLogic.py:89-90 | the sums of accepted pairs do not depend on the order of two adjacent batches of pairs, whatever comes before and after |
| `Dashboard.Render` | DataBaseLogic.py:101-125 | labels are the key order; `sizes[k]` is the total of `labels[k]`; table row `k` is `(labels[k], sizes[k])` |
| `Dashboard.Show` | DataBaseLogic.py:61-73 | "no data" exactly when nothing was fetched; "empty table" exactly when documents were fetched and none has a field |
| `Dashboard.AddItems` | DataBaseLogic.py:81-93 | the inner loop over one `items` list: stops with the log as it was at the first crash, and otherwise ends in the state `Run` gives after the list's verdicts |
| `Dashboard.AddItem` | DataBaseLogic.py:83-93 | one pass of the inner loop body: fails exactly on a crash verdict, keeping the log; otherwise its new dictionary, order and log are one step of the specification |
| `Dashboard.ShowGraph` | DataBaseLogic.py:61-102 | the nested loops with early returns produce exactly the outcome `Show` specifies |
| `Dashboard.ShowFails` | DataBaseLogic.py:128-129 | any exception other than ValueError gives the error outcome with the warnings shown before the first such item |
| `Dashboard.ShowNoCategories` | DataBaseLogic.py:96-98 | after fetching, "no valid category data" exactly when no item was accepted, carrying every ValueError warning |
| `Dashboard.ShowChart` | DataBaseLogic.py:101-125 | labels are the accepted categories by first appearance without duplicates; each size is the exact sum of its category's accepted prices; table rows are the same pairs in the same order |
| `Dashboard.NoItemsAnywhere` | DataBaseLogic.py:80-98 | documents that all lack `items`, or all have an empty or falsy one, give "no valid category data", distinct from "no data" |
| `Dashboard.MissingItemsFails` | DataBaseLogic.py:80-81 | a document without `items` among documents that have it makes the whole call fail |
| `Scenarios.FoodAndTransport` | DataBaseLogic.py:79-102 | "Food" at "10" and 5 plus "Transport" at "bad" give one label Food with total 15 and one warning |
| `Scenarios.FalsyPriceSkipped` | DataBaseLogic.py:86 | a price of None, "", 0 or False is skipped silently |
| `Scenarios.ZeroTextCounts` | DataBaseLogic.py:86-90 | the text "0" is accepted and creates its category at 0 |
| `Scenarios.BlankCategoryAccepted` | DataBaseLogic.py:86 | a blank category `" "` is accepted untrimmed |
| `Scenarios.TextPriceMatchesNumber` | DataBaseLogic.py:86-88 | a non-empty text price that parses to a non-zero amount is treated exactly as that amount given as a number |
| `Scenarios.NonDictItemFails` | DataBaseLogic.py:83-84 | a list element that is not a dict makes the call fail even after valid items |

## Left out

- The MongoDB connection (`database_setup`, the global `client`), `upload_to_database` and `display_all_data`: input and output against an external database and a display helper that is not part of this model.
- Drawing the chart and the table with matplotlib and streamlit, and the text of the error and warning banners: the model stops at the sequences handed to them, and a warning is the offending item appended to a log. Exceptions raised by the plotting code after the loop are not modelled.
- IEEE-754 arithmetic: `float(...)` on text is the parameter `parse`, numbers are exact `real`s and sums are exact, so rounding, NaN and infinite prices, and `OverflowError` on huge integers are not modelled.
- pandas beyond two effects: the table is empty exactly when no document has a field, and a document lacking `items` gets NaN when another has it. Other conversions pandas may apply to cell values are not modelled.
- An `items` value that is neither a list nor falsy is modelled as failing when iterated; an iterable of dicts other than a list (a tuple) cannot come out of the document store and is not modelled.
- Truthiness of a non-`str` category is not modelled (it is rejected either way); a value whose truth test raises is not modelled.
- `Aggregation.RunOrderIrrelevant`: holds for exact sums; with floating-point addition, totals can differ in the last bits when batches are reordered. It swaps two adjacent batches; any reordering follows by repeating such swaps, but is not stated as one lemma.
