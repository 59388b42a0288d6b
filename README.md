# Trip Expense Tracker — settlement model in Dafny

The Trip Expense Tracker is a Streamlit page. It records what each participant of
a trip spent in six fixed categories (Accommodation, Food and Drinks, Transport,
Entertainment, Shopping, Miscellaneous) plus an uncategorised "extra" amount.
Every save adds a new record under a period key such as `2024_March`. For a
saved period the page reads the newest record and shows three figures: the
total income, the total expense and the remaining budget. It also shows what
every participant other than the payer owes the payer, and a Sankey chart. The chart's money flows from the income to the
participants, from the participants to the categories, and from the income to the
two totals.

This project models that computation as pure functions. It covers the lines of
`app.py` that turn a fetched record into the figures and the chart's lists, and
the period key.

- `sums.dfy` (module `Sums`): `sum` over a list (`SeqSum`, `RealSum`) and over a
  dict's values (`MapSum`). A lemma shows that `MapSum` does not depend on the
  order in which the keys are visited.
- `settlement.dfy` (module `Settlement`): the record fetched for a period, the
  category constants, `total_expense`, the `amount_owed` table, and the KeyError
  that its comprehension can raise.
- `flow.dfy` (module `Flow`): the Sankey `label`, `source`, `target` and `value`
  lists. `label.index(...)` is modelled as written (first occurrence), as `IndexOf`.
- `report.dfy` (module `Report`): the whole "Plot Period" action. It returns either
  the summary, or the exception the script raises on the way (`ZeroDivision`,
  `MissingKey`), or "no data" when nothing was fetched.
- `example.dfy` (module `SettlementExample`): a worked two-participant example.
- `period.dfy` (module `Period`): the period key `f"{year}_{month}"`, and a proof
  that different periods get different keys.
- `wrappers.dfy` (module `Wrappers`): `Option` and `Result`.

Python's integers are unbounded, and so are Dafny's `int`. The sums are therefore
exact. The only float in the computation is the even split `total_income /
len(persons)`. It is modelled as exact `real` division.

How the code treats records and bad data:

- `insert_period` adds a new record on every save and deletes nothing
  (database.py:70-90). `get_period` reads the newest record of a period, by id
  (database.py:114-116). The model takes that fetched record, or its absence,
  as its input.
- `total_income / len(persons)` has no guard (app.py:158), so an empty list
  raises ZeroDivisionError. `Report.Summarize` returns `Failure(ZeroDivision)`,
  and returns it only in that case.
- A missing participant or category key raises KeyError (app.py:146, 158), and
  nothing is coerced to 0. `Report.Summarize` returns `Failure(MissingKey(k))`,
  where `k` is the key Python would report first.

## Model

| member | source | states |
|---|---|---|
| Sums.MapSum | app.py:135 | `sum(d.values())`; when the values are non-negative, the sum is non-negative and at least every single value |
| Sums.MapSumRemove | app.py:135 | `sum(d.values())` is the same whichever key is added first: it equals `d[k]` plus the sum of the rest, for every key `k` |
| Sums.LookupsSumIsMapSum | app.py:135 | adding a dict's values along a list that names each key exactly once gives `sum(d.values())` |
| Sums.RealSumConstant | app.py:158 | a list of `n` copies of `c` sums to `n * c` |
| Settlement.Categories | app.py:9 | `expenses`: the six fixed categories, in display order |
| Settlement.PeriodRecord | app.py:129-132 | the fetched record's fields: `total_income`, `persons`, `payer`, `person_expenses` and `comment` |
| Settlement.PersonTotal | app.py:135-146 | `sum(person.values())` for one participant; with non-negative amounts it is non-negative and at least each amount |
| Settlement.PersonTotals | app.py:135 | each participant in the dict mapped to that participant's own total |
| Settlement.TotalExpense | app.py:135 | `total_expense`, summed over every dict; with the form's non-negative amounts (app.py:90, 94) it is non-negative and no participant's total exceeds it |
| Settlement.AmountOwed | app.py:145-148 | the owed table's keys are exactly the listed participants whose name differs from the payer; the payer is never a key; each entry is that participant's own total of all their amounts |
| Settlement.MissingOwedKey | app.py:145-148 | the comprehension raises KeyError exactly when some listed non-payer has no dict; the key reported is the first such participant in list order |
| Settlement.PersonTotalSplit | app.py:135 | for a dict as the form writes it (app.py:88-94), a participant's `sum(person.values())` is the six category amounts plus "extra" |
| Settlement.OwedPlusPayerIsTotal | app.py:135-148 | when the dict holds exactly the listed participants and the payer is one of them, the owed amounts plus the payer's own total equal `total_expense` |
| Settlement.TotalExpenseInListOrder | app.py:135 | with distinct names and one dict per listed participant, `total_expense` is the participants' totals added in list order |
| Flow.IndexOf | app.py:156-157 | `list.index(x)` returns an index holding `x`, and no earlier index holds `x` |
| Flow.IndexOfDistinct | app.py:156-157 | in a list without repeats, `index` of the element at `i` is `i` |
| Flow.Labels | app.py:155 | `label` has `len(persons) + 9` nodes, and "Total Income" is node 0 |
| Flow.LabelsLayout | app.py:155 | participant `i` is node `1 + i`, category `j` is node `1 + n + j`, and "Total Expense" and "Remaining Budget" are nodes `n + 7` and `n + 8` |
| Flow.LabelsHoldFixedNodes | app.py:155-157 | every category and both totals are in `label`, so their `label.index` lookups cannot fail |
| Flow.PersonSources | app.py:156 | the nested comprehension gives six entries per participant; the entry for participant `i` and category `j` is `label.index(persons[i])`; every entry is a valid node |
| Flow.CategoryTargets | app.py:157 | six entries per participant; the entry for participant `i` and category `j` is `label.index(expenses[j])`; every entry is a valid node |
| Flow.Sources | app.py:156 | `source` has `n + 6n + 2` entries; all are valid node indices; the first `n` and the last two are node 0 |
| Flow.Targets | app.py:157 | `target` has `n + 6n + 2` entries; all are valid node indices; edge `i < n` ends at node `i + 1` |
| Flow.CategoryWeights | app.py:158 | the nested comprehension has six entries per participant; the entry for participant `i` and category `j` is `person_expenses[persons[i]][expenses[j]]` |
| Flow.EvenSplit | app.py:158 | the even split has one entry per participant, each `total_income / len(persons)` |
| Flow.AsReals | app.py:158 | the integer amounts become chart weights one for one, each with the same value |
| Flow.Values | app.py:158 | `value` has `n + 6n + 2` entries, parallel to `source` and `target` |
| Flow.ValuesLayout | app.py:158 | every income edge carries `total_income / n`; the edge for participant `i` and category `j` carries that amount; the last two edges carry `total_expense` and `remaining_budget` |
| Flow.CategoryEdgeSource | app.py:155-156 | with distinct node labels, the edge for participant `i` and category `j` leaves node `1 + i` |
| Flow.CategoryEdgeTarget | app.py:155-157 | with distinct node labels, the edge for participant `i` and category `j` enters node `1 + n + j` |
| Flow.TotalEdgeEndpoints | app.py:155-157 | with distinct node labels, the last two edges end at "Total Expense" and "Remaining Budget" |
| Flow.EvenSplitSumsToIncome | app.py:158 | in exact arithmetic, the `n` even-split edges together carry `total_income` |
| Flow.CategoryWeightsSum | app.py:135-158 | participant by participant, the category edge weights add up to each participant's total less their "extra" |
| Flow.CategoryEdgesCarryTotalLessExtra | app.py:135-158 | with distinct names and form-shaped dicts, the participant-to-category edges carry `total_expense` minus every "extra", because "extra" has no category node |
| Report.MissingAmountKey | app.py:158 | reports the first category, in order, that the participant's dict lacks, and none exactly when all are present |
| Report.MissingPersonKey | app.py:158 | the KeyError of one participant's lookups: none exactly when the participant has a dict with all six categories; otherwise the participant itself when it has no dict, else its first missing category in order |
| Report.MissingWeightKey | app.py:158 | the `value` comprehension raises KeyError exactly when a listed participant has no dict or lacks a category; the key reported is the first one the comprehension looks up and misses, in its person-then-category order |
| Report.Summarize | app.py:129-158 | the page produces a summary exactly when `persons` is non-empty and every participant has all six categories; ZeroDivisionError is raised exactly when the list is empty; a non-payer without a dict raises KeyError first; otherwise the KeyError of the `value` comprehension is raised; any reported key really is missing |
| Report.PlotPeriod | app.py:122-166 | "no data" exactly when nothing was fetched; a chart exactly when the fetched record summarises without an exception, and then it is that record's summary; a crash carries the exception the summary raised |
| Report.SummaryFigures | app.py:129-158 | a summary shows the recorded income, `total_expense`, and `remaining_budget == total_income - total_expense`, which goes negative exactly when spending exceeds income; the owed table has no payer; the flow graph is the record's `label`, `source`, `target` and `value` lists, which are parallel with indices in range; the last two edges leave node 0 carrying the two totals |
| Report.SummaryOwedBalances | app.py:135-148 | with non-negative amounts and one dict per listed participant, the total and every owed amount are non-negative, and the owed amounts plus the payer's total equal the total expense |
| SettlementExample.Entry | app.py:85-94 | a dict as the form writes it holds exactly the six categories and "extra", with the given amounts |
| SettlementExample.EntryTotal | app.py:135 | such a dict sums to its six amounts plus "extra" |
| SettlementExample.TwoPersonSettlement | app.py:135-148 | with participants "A" (the payer) and "B", B owes B's own total, and the total expense is both totals |
| SettlementExample.TwoPersonScenario | app.py:135-148 | income 1000; A spends 100 on food; B spends 50 on food and 20 on transport; then the total expense is 170, 830 remains, and B owes 70 |
| Period.Decimal | app.py:101 | `str(year)` is a non-empty string of digits, without a leading zero, whose decimal value is `year` |
| Period.PeriodKey | app.py:101 | the key is the year's digits, then `_`, then the month |
| Period.FirstUnderscore | app.py:101 | no underscore in a key comes before the one that follows the year |
| Period.PeriodKeyInjective | app.py:101 | two keys are equal only when their years and months are equal, so different periods never share a key |

## Left out

- database.py is not part of this model. It covers the MySQL connection and its hardcoded credentials, the queries, commit and rollback, JSON encoding and decoding of the stored lists, and the choice of the newest record by `ORDER BY id DESC LIMIT 1`. The fetched record is an input: `Report.PlotPeriod` takes it as an `Option`.
- The Streamlit interface is not modelled: page setup, the navigation menu, the three-step data-entry wizard and its `st.session_state`, the forms, the metrics and text output, and the Plotly figure (app.py:16-109, 138-152, 160-166). `SettlementExample.Entry` records only the shape of the dict that the form fills.
- The period list (app.py:115-119) and the "No periods found" notice are interface only. The year and month lists come from the clock and the calendar (app.py:19-20), so `Period.PeriodKey` takes the year and month as parameters.
- Flow.EvenSplit: the share `total_income / len(persons)` is exact `real` division, not a 64-bit float, and nothing is claimed about rounding. Flow.EvenSplitSumsToIncome holds in exact arithmetic only: with floats, ten shares of an income of 1 add up to slightly less than 1. The `:.2f` display format (app.py:152) is not modelled.
- Flow.ValuesLayout: Python leaves the category amounts and the two totals as ints in `value`. Here every weight is a `real`, and the integer amounts are converted exactly.
- Flow.CategoryEdgeSource, Flow.CategoryEdgeTarget and Flow.TotalEdgeEndpoints assume that all node labels are distinct. `Sources` and `Targets` still model `label.index` as written when names repeat or match a fixed node, but no lemma describes where such edges land.
- Settlement.OwedPlusPayerIsTotal assumes that the dict's participants are exactly the listed ones, as the form builds it (app.py:85). A stored dict with other keys would count in `total_expense` but not in the table.
- Other faults are not modelled: a missing field in the fetched record (app.py:129-132), and non-integer amounts. The record's fields are typed, and amounts are `int`.
- Period.Decimal covers non-negative years only. The years come from `datetime` and are positive.
