# Expense leaderboards and expense store, modelled in Dafny

This project models the two pieces of logic in a pair of small Streamlit
expense apps.

- **Leaderboard app** (`leaderboard_app/app.py`). A list of expense records
  (name, amount, date, category, payment method, optional card type) is
  grouped along one column (name, payment method, card type of Card payments,
  category). Each group gets its sum and count, and for three of the boards its
  mean. The groups are ranked by total (or by count for the frequency board).
  The top-spender and frequency boards display their first ten rows at
  positions 1, 2, … Summary figures sit under the boards: the top spender,
  the most frequent spender, the top category and the average expense, plus
  the record count, date range and total amount above them.
- **Expense app** (`expense_app/app.py`). The session holds a list of expenses
  backed by the append-only file `expenses.csv`. The file is written with a
  header when it is created and one row per later expense. The list is loaded
  from the file only while it is empty. A submission is appended to the list
  and then to the file. The metrics (count, total, average) and the
  payment-method counts are read from the list.

Leaderboard amounts are whole cents (`nat`), so every sum is exact. In the
expense app the amount is a whole number of dollars, because the form's number
input has `step=1`. Dates
are day numbers (`Day = nat`).

Modules, one concern each:

- `common.dfy` (`Common`): `Option`, the payment methods, and Python's `<` on
  strings (`StrLt`), the order in which a pandas groupby lists its keys.
- `grouping.dfy` (`Grouping`): the record, the dimensions and
  `groupby(...).agg(['sum','count'])` as a fold (`GroupBy`/`Add`) into rows
  with strictly ascending keys. `SumFor`/`CountFor` are the independent
  reference definitions the fold is proved against.
- `ranking.dfy` (`Ranking`): `sort_values(..., ascending=False)` as an
  insertion sort, `head(n)` with 1-based positions, and `idxmax`.
- `leaderboards.dfy` (`Leaderboards`): the five `create_*_leaderboard`
  functions.
- `summary.dfy` (`Summary`): the summary metrics.
- `generator.dfy` (`Generator`): how `create_fake_expenses` builds one record
  from its random draws, for the finding below.
- `expense_app.dfy` (`ExpenseApp`): the classes `ExpenseFile` (the CSV store:
  an existence flag and its lines) and `Session` (the session list), and the
  metrics.

The leaderboard code is pure pandas pipelines, so it is modelled as functions
and lemmas. The expense app changes state: the list is appended to and
reassigned, and the file is appended to. It is modelled with classes whose
methods state the new state in terms of the old.

The model states what the code does, and the code does not:
- validate its input: an empty name is accepted, and nothing ties a card type
  to Card payments;
- roll back the session list when the file append fails;
- report a corrupt file when loading;
- break ties between equal totals in a fixed order;
- cut the payment-method, card-type and category boards to a fixed number of
  rows. Those boards show all their rows.

Two places in the leaderboard app evidently do not do what their authors meant
(see Findings). The generator gives Cash records card types. The frequency
board's merge joins on a column that one of its two frames does not have. As
written, that merge raises on every run, which stops the script before the
later tabs and the summary figures are drawn. The model keeps the raising
merge as a member of its own. Everything else (the frequency board, the later
boards and the summary figures) is modelled as the code evidently intends.

## Model

| member | source | states |
|---|---|---|
| `Common.MethodName` | expense_app/app.py:43 | the two payment methods are stored and grouped under the texts "Cash" and "Card", one each |
| `Grouping.AddFind` | leaderboard_app/app.py:43 | adding one amount under a key bumps that key's row by the amount and one record (creating it with count 1 when missing); every other key's row is unchanged |
| `Grouping.AddKeepsOrder` | leaderboard_app/app.py:43 | adding an amount keeps the keys strictly ascending and brings in no row except the one for its key |
| `Grouping.AddSums` | leaderboard_app/app.py:43 | adding an amount raises the sum of all totals by it and the sum of all counts by one |
| `Grouping.AggregateStep` | leaderboard_app/app.py:43 | one more record adds its amount and one to its own key's figures and changes no other key's |
| `Grouping.GroupByIsGrouping` | leaderboard_app/app.py:43 | the grouping has strictly ascending (hence distinct) keys, and for every key it holds exactly the row (key, sum of that key's amounts, number of its records), or no row when no record carries the key |
| `Grouping.GroupBySums` | leaderboard_app/app.py:43 | no record is lost or counted twice: group totals add up to the amounts of the records that have a key, counts to the number of such records |
| `Grouping.GroupRow` | leaderboard_app/app.py:43 | every group has count at least 1, its total and count are its key's sum and number of records, and no other group has its key |
| `Grouping.GroupKeys` | leaderboard_app/app.py:43 | a key has a group exactly when some record carries it (both directions); records with a null key form no group |
| `Grouping.AllKeyed` | leaderboard_app/app.py:43 | grouping by name, payment method or category misses no record: the keyed count is the number of records and the keyed sum is the total amount |
| `Ranking.SortDescSpec` | leaderboard_app/app.py:45 | the ranked table is non-increasing in the ranking column, a permutation of its input, and of the same length |
| `Ranking.SortDescSums` | leaderboard_app/app.py:45 | ranking keeps the sum of totals and the sum of counts |
| `Ranking.SortDescTieBreak` | leaderboard_app/app.py:45 | on input in ascending key order, this model's sort lists tying rows in ascending key order (a choice; pandas' sort is not stable) |
| `Ranking.DisplayedSpec` | leaderboard_app/app.py:48 | `head(n)` enumerated from 1: at most n rows and all of them when fewer, at positions 1..k in table order; on a ranked table no row left out ranks above a row shown |
| `Ranking.IdxMax` | leaderboard_app/app.py:270 | `idxmax` gives the position of a row whose value is the greatest, and every row before it has a strictly smaller value (the first maximum) |
| `Leaderboards.BoardSpec` | leaderboard_app/app.py:43-45 | the groupby → agg → sort pipeline gives a table sorted by its ranking column that is a permutation of the grouping, one row per key that occurs, each with its key's sum and count (count ≥ 1), totals and counts adding up to the keyed records |
| `Leaderboards.SpendingLeaderboard` | leaderboard_app/app.py:38-70 | the returned top-spender table is the whole grouping by name, untruncated and sorted by total descending; one row per name with its sum and count; counts add up to the number of records and totals to the total amount |
| `Leaderboards.SpendingDisplay` | leaderboard_app/app.py:48 | at most 10 rows are displayed, at positions 1..k, being the first k rows of the table, and no name left out spent more than a name shown |
| `Leaderboards.FrequencyLeaderboard` | leaderboard_app/app.py:77-83 | as intended (the merge joining on names): names ranked by number of expenses, non-increasing; each row's Total Spent is that name's sum of amounts; one row per name |
| `Leaderboards.FrequencyDisplay` | leaderboard_app/app.py:86 | as intended: at most 10 rows at positions 1..k, the first k of the table; no name left out has more expenses than a name shown |
| `Leaderboards.MergeOn` | leaderboard_app/app.py:82 | `merge(..., on=key)` joins exactly when `key` is a column of both frames, and otherwise raises `KeyError` naming `key` |
| `Leaderboards.FrequencyLeaderboardAsWritten` | leaderboard_app/app.py:76-83 | as written: raises exactly when the sums frame has no `Name` column; a result, if there were one, would be the count-ranked board |
| `Leaderboards.FrequencyMergeRaises` | leaderboard_app/app.py:81-82 | the merge as written raises `KeyError('Name')` for every record list, the empty one included, because the sums frame's columns are `name` and `amount` |
| `Leaderboards.IntendedMergeJoins` | leaderboard_app/app.py:81-83 | with the sums frame's name column called `Name`, the merge joins, and the board is sorted by count and holds one row per name with its count and total |
| `Leaderboards.BoardTieOrder` | leaderboard_app/app.py:45 | in this model, rows that tie on the ranking column appear in ascending key order (a modelling choice, not a promise of the code) |
| `Leaderboards.WithAverages` | leaderboard_app/app.py:115-117 | the mean column: every row keeps its key, sum and count, and its average is its total divided by its count (count ≥ 1) |
| `Leaderboards.StatsBoard` | leaderboard_app/app.py:115-119 | a statistics board is ranked by total descending, holds one row per occurring key with its sum and count (count ≥ 1), and average = total / count |
| `Leaderboards.PaymentMethodLeaderboard` | leaderboard_app/app.py:110-145 | the payment-method board is a statistics board whose keys are only "Cash" and "Card", at most two rows, whose totals add up to all the money spent |
| `Leaderboards.PaymentMethodKeys` | leaderboard_app/app.py:115 | a board grouped by payment method has only the keys "Cash" and "Card" and at most two rows |
| `Leaderboards.CategoryLeaderboard` | leaderboard_app/app.py:193-230 | the category board is a statistics board whose totals add up to all the money spent and whose counts add up to the number of records |
| `Leaderboards.CardExpenses` | leaderboard_app/app.py:152 | the filter keeps only Card payments, and is empty exactly when no record is a Card payment |
| `Leaderboards.CardExpensesCount` | leaderboard_app/app.py:152 | the filter keeps each Card payment exactly as often as it occurs in the records and keeps no Cash payment |
| `Leaderboards.CardExpensesAppend` | leaderboard_app/app.py:152 | filtering a concatenation gives the filtered parts in the same order, so the Card payments keep the records' order |
| `Leaderboards.CardExpensesSingle` | leaderboard_app/app.py:152 | a single record is kept exactly when it is a Card payment |
| `Leaderboards.CardTypeLeaderboard` | leaderboard_app/app.py:147-191 | `None` exactly when no record is a Card payment; otherwise the statistics board of the Card payments grouped by card type |
| `Leaderboards.CardFilterFigures` | leaderboard_app/app.py:152-158 | after the Card filter a card type's sum and count are those of the Card payments carrying it; a Cash record with a card type adds nothing |
| `Leaderboards.CardTypeRows` | leaderboard_app/app.py:156-158 | each card-type row holds the sum and count (≥ 1) of the Card payments with that card type, and a card type has a row exactly when some Card payment carries it, so null card types form no group |
| `Summary.TopGroup` | leaderboard_app/app.py:270-271 | `None` exactly when no record has a key; otherwise a key that occurs, with its sum as the top amount |
| `Summary.TopGroupIsFirstMaximum` | leaderboard_app/app.py:270-271 | the top amount is the greatest total of any key, and any other key with the same total sorts after the chosen one: ties go to the lexicographically smallest key |
| `Summary.NoGroupsNoKeys` | leaderboard_app/app.py:270 | the grouping is empty exactly when no record has a key |
| `Summary.TopGroupIsMaximum` | leaderboard_app/app.py:270-271 | the top total is at least the total of every key that occurs |
| `Summary.TopSpender` | leaderboard_app/app.py:270-272 | `None` exactly for an empty record list (where pandas raises); otherwise a name that occurs, with its total spent, which no name's total exceeds |
| `Summary.TopCategory` | leaderboard_app/app.py:280-282 | `None` exactly for an empty record list; otherwise a category that occurs, with its total spent, which no category's total exceeds |
| `Summary.MostFrequent` | leaderboard_app/app.py:275-277 | `None` exactly for an empty record list; otherwise a name whose number of expenses is at least every other name's, with its count and total |
| `Summary.MostFrequentIsMaximum` | leaderboard_app/app.py:275-276 | the head of the count-ranked table has as many expenses as any name |
| `Summary.AverageExpense` | leaderboard_app/app.py:285 | `None` exactly for an empty record list (pandas' NaN); otherwise average × number of records = total amount |
| `Summary.AverageWithinAmounts` | leaderboard_app/app.py:285 | the average expense lies between the smallest and the largest amount |
| `Summary.DateRange` | leaderboard_app/app.py:238 | `None` exactly for an empty record list; otherwise the earliest and latest dates, both attained, bounding every record's date |
| `Generator.MakeExpenseAsWritten` | leaderboard_app/app.py:22-29 | as written, a record has a card type exactly when the second, independent payment-method draw is Card |
| `Generator.MakeExpense` | leaderboard_app/app.py:22-29 | corrected: a record has a card type exactly when its own payment method is Card |
| `Generator.AsWrittenLosesCardPayment` | leaderboard_app/app.py:28 | a concrete draw gives a Card payment with no card type, which the card board omits while the payment board counts it; another gives a Cash payment with a card type |
| `Generator.MadeConsistent` | leaderboard_app/app.py:28 | records built the corrected way have a card type exactly when they are Card payments |
| `Generator.CardFiguresAgree` | leaderboard_app/app.py:152-158 | with consistent records, the card-typed Card payments are all the Card payments: their sum and count equal the "Card" group's |
| `Generator.CardBoardCoversCardPayments` | leaderboard_app/app.py:152-158 | with consistent records, the card-type board's totals and counts add up to the "Card" row of the payment-method board |
| `ExpenseApp.RowsOfDataLines` | expense_app/app.py:12-14 | data lines are read back one expense each, in file order |
| `ExpenseApp.ExpenseFile.Missing` | expense_app/app.py:11 | a store not yet created has no lines |
| `ExpenseApp.ExpenseFile.Load` | expense_app/app.py:10-15 | a missing file loads as the empty list; an existing one loads one expense per line after the header, in order |
| `ExpenseApp.ExpenseFile.Append` | expense_app/app.py:17-26 | a missing file is created holding the header then exactly this row; an existing file gets exactly this row at the end and no second header; either way the file has one header and loads as the previous expenses followed by this one |
| `ExpenseApp.Session.constructor` | expense_app/app.py:7-8 | a new session starts with an empty list |
| `ExpenseApp.Session.Init` | expense_app/app.py:29-30 | the list is replaced by the stored expenses only when it is empty, so a populated list is never overwritten; afterwards it is empty only if the store is, so a second call changes nothing |
| `ExpenseApp.Session.Submit` | expense_app/app.py:49-61 | the list grows by exactly this expense at the end with earlier ones unchanged; the file loads as before plus this expense; a list that mirrored the file still does |
| `ExpenseApp.Restart` | expense_app/app.py:7-61 | a session started after a submission loads the earlier stored expenses followed by the new one, and initialising it again duplicates nothing; afterwards the file is still well-formed and loads exactly as that list |
| `ExpenseApp.TotalAppend` | expense_app/app.py:78 | appending an expense raises the total by its amount |
| `ExpenseApp.SummaryOf` | expense_app/app.py:70-80 | the metrics exist exactly when the list is non-empty; count = length, total = sum of amounts, average × count = total |
| `ExpenseApp.SubmitUpdatesSummary` | expense_app/app.py:58 | after a submission the count is one more and the total is larger by the submitted amount |
| `ExpenseApp.MethodCountsAddUp` | expense_app/app.py:87 | Cash and Card payments together are all the expenses |
| `ExpenseApp.PaymentCounts` | expense_app/app.py:87 | each method that occurs is listed once with its number of expenses (≥ 1), methods that do not occur are not listed, counts are non-increasing, and they add up to the number of expenses |

## Left out

- Streamlit rendering: subheaders, columns, metrics, tabs, charts, images, the medal emoji per position and the form widgets. They are presentation only.
- `streamlit-app.py` as a whole. It is a UI demo over random numbers with no logic of its own.
- The randomness of `create_fake_expenses` (`random.choice`, `random.uniform`, `np.random.seed`, `datetime.now`). The records, or the draws in `Generator`, are inputs.
- Floating point. Amounts are whole cents, so sums and `.round(2)` of totals are exact; averages are exact `real` quotients.
- `Leaderboards.WithAverages`: the average is not rounded to two decimals as `.round(2)` does.
- `Summary.AverageExpense`: the exact quotient, not a float mean.
- CSV text: quoting, encoding, `pd.read_csv` parsing and `pd.to_datetime(...).dt.date`. The file is an existence flag plus a sequence of lines (one header, then rows).
- `ExpenseApp.ExpenseFile.Load`: a row reads back as the expense it was written from. `pd.read_csv` does not do that in two cases. A name it takes as a missing value comes back as NaN: the empty name, which the form accepts, or names such as "NA", "null" or "nan". Its type guessing also changes names. When every name in the file looks like a number or a boolean, the name column comes back as int, float or bool: "007", "2024", "1e3" and "True" load as 7, 2024, 1000.0 and True.
- `ExpenseApp.ExpenseFile.Append`: its round trip (the file loads as the earlier expenses plus the new one) holds only when `pd.read_csv` reads every name back as the same string. It fails for a name read as a missing value, and for all names when every name in the file looks like a number or a boolean.
- `ExpenseApp.Restart`: the reloaded list equals the stored expenses only under the same condition: no name is read as a missing value, and not every name in the file looks like a number or a boolean.
- `os.path.exists` and the file system. The existence flag stands for them.
- Failures of the file system. The code handles none, so neither does the model.
- pandas internals: `groupby`, `agg`, `sort_values` and `merge` are replaced by explicit folds and an insertion sort over sequences.
- `Leaderboards.FrequencyLeaderboard`: models the board as intended. As written, the merge raises (`Leaderboards.FrequencyMergeRaises`). The intended `value_counts` followed by an inner `merge` on names with the per-name sums is modelled as one count-ranked grouping carrying both figures. Both frames hold the same set of names, so that merge adds and loses no row.
- The tabs after the frequency board and the summary figures are modelled as the code computes them. As written, the script stops at the raising merge and never reaches them.
- `Leaderboards.SpendingLeaderboard`: pandas' default sort is not stable and fixes no order among tied totals. Its contract promises only sortedness and a permutation. The tie order this model happens to produce is stated separately, as a choice, in `Ranking.SortDescTieBreak` and `Leaderboards.BoardTieOrder`.
- `Summary.MostFrequent`: which of several names tied at the top count is returned follows this model's tie order. `value_counts` fixes none.
- `ExpenseApp.PaymentCounts`: lists Cash first when the two counts tie. `value_counts` fixes no order there.
- `Summary.DateRange`: dates are day numbers; `strftime('%Y-%m-%d')` formatting is not modelled.
- Streamlit's rerun of the whole script on every interaction. `Session.Init` is the step each rerun performs, and `Restart` shows a second run.

## Findings

| source | as written | input that shows it | evidently intended | confidence | as-written member | corrected member |
|---|---|---|---|---|---|---|
| leaderboard_app/app.py:82 | `frequency_by_person.merge(spending_by_person, on='Name')` joins on `Name`, but the sums frame from line 81 has the columns `name` and `amount` | any record list, the 50 generated records and the empty list included: pandas raises `KeyError: 'Name'`, so line 86 and everything after tab 2 are never reached | a merge on the name column of both frames (the sums frame's columns renamed to `Name` and `Total Spent`), giving one row per name with its count and total | high; not executed | `Leaderboards.MergeOn`, `Leaderboards.FrequencyLeaderboardAsWritten`, `Leaderboards.FrequencyMergeRaises` | `Leaderboards.IntendedMergeJoins`, `Leaderboards.FrequencyLeaderboard`, `Leaderboards.FrequencyDisplay` |
| leaderboard_app/app.py:28 | the card type is set when a second, independent `random.choice(payment_methods)` returns "Card" | draws with payment method Card and a second draw of Cash give a Card payment with no card type, which the card-type board omits while the payment-method board counts it; payment method Cash and a second draw of Card give a Cash payment with a card type | a card type exactly for records whose own payment method is Card | high that the draw is independent; medium on intent; not executed | `Generator.MakeExpenseAsWritten`, `Generator.AsWrittenLosesCardPayment` | `Generator.MakeExpense`, `Generator.MadeConsistent`, `Generator.CardBoardCoversCardPayments` |
