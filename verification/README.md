# Portfolio analysis tool — bookkeeping core in Dafny

This project models the bookkeeping inside the `PortfolioAnalysisTool` class
of the portfolio dashboard (`main.py`), without the Streamlit and matplotlib
calls around it. It covers:

- the portfolio: an append-only list of asset records (name, type, value,
  allocation percentage), and `add_asset`, which appends one record and
  checks nothing;
- the total portfolio value shown by `view_portfolio`: a sum of the values;
- the input to `plot_allocation_pie_chart`: a warning for an empty
  portfolio, or else one label (the name) and one size (the allocation
  percentage) per record;
- `asset_allocation_analysis`: allocation percentages grouped by asset type
  into a Python `dict`, and the warning shown when those totals do not add
  up to exactly 100;
- `risk_assessment`: a fixed table from asset type to risk level, with
  "Unknown" for any other type, applied to each record in order.

Money and percentages are `real`. Python's `sum` is modelled as a left fold
from 0 (`Sums.Sum`). A Python `dict` is modelled as an insertion-ordered list
of entries with distinct keys (`Dict`): `Get` is `d.get(k, default)`, `Set`
is `d[k] = v`, which overwrites in place or appends, and `AddTo` is the
`d[k] = d.get(k, 0) + x` step of the grouping loop.

Files:

- `sums.dfy`: module `Sums`, the left-fold sum and its algebra.
- `dict.dfy`: module `Dict`, the insertion-ordered dictionary.
- `portfolio.dfy`: module `Portfolio`, with records, `AddAsset`, the total value and the pie-chart input.
- `allocation.dfy`: module `Allocation`, with grouping by type, conservation of the total, and the 100% check.
- `risk.dfy`: module `Risk`, the risk table and the per-record assessment.

## Model

| member | source | states |
|---|---|---|
| Portfolio.AddAsset | main.py:8-15 | Adding a record grows the portfolio by exactly one record, placed at the end, with the given name, type, value and allocation. All earlier records are unchanged. There is no precondition, so negative values, allocations over 100 and unknown types are all stored. |
| Portfolio.ComputeTotalValue | main.py:19 | The overview total, accumulated record by record, equals the sum of every record's value. It is 0 for an empty portfolio. |
| Portfolio.TotalValueConcat | main.py:19 | The total value is additive: for two portfolios laid end to end, it is the sum of their two totals. |
| Portfolio.FormBoundedTotalValue | main.py:75-76 | When every record respects the form's bounds (value at least 0, allocation between 0 and 100), the total value and the total allocation are non-negative. Those bounds live on the input widgets; the tool itself does not enforce them. |
| Portfolio.PieChartInput | main.py:29-33 | An empty portfolio yields only the warning and no chart data. Otherwise labels and sizes both have the portfolio's length, and entry i is asset i's name and allocation. |
| Allocation.TypesMembership | main.py:41-43 | The list of types holds exactly the asset types present in the portfolio, each once. |
| Allocation.TypesFirstAppearance | main.py:41-46 | The list of types is in order of first appearance: of any two listed types, the earlier one occurs in the portfolio before any record of the later one. |
| Allocation.TypeTotalAbsent | main.py:43 | A type with no record in the portfolio has a per-type total of 0, the default of the dictionary lookup. |
| Allocation.Group | main.py:41-43 | The grouping loop builds a well-formed dictionary (each key once). Its keys, in iteration order, are exactly the types present, in order of first appearance. |
| Allocation.GroupGet | main.py:43 | `allocation.get(t, 0)` on the finished dictionary is the sum of the allocation percentages of the records of type t, and 0 for a type with no record. |
| Allocation.GroupValues | main.py:41-43 | Each dictionary entry equals the sum of allocation percentages over all records of that type. |
| Allocation.GroupConserves | main.py:41-49 | The dictionary's values add up to the sum of all records' allocation percentages, so grouping conserves the total. |
| Allocation.AddAssetRegroups | main.py:41-43 | After a record is added, the dictionary's lookup of that record's type grows by its percentage and every other lookup is unchanged. The new type becomes the last key, and only if it was absent. |
| Allocation.PieMatchesWarning | main.py:33-50 | For a non-empty portfolio, the pie chart's sizes add up to exactly 100 if and only if the allocation analysis shows no warning. |
| Allocation.AllocationAnalysis | main.py:39-50 | The analysis report has the types present as keys, in first-appearance order. Each value is that type's total, and the values add up to the total allocation. The warning is raised if and only if that total is not exactly 100. |
| Allocation.AllocationMap | main.py:41-47 | As a map from type to percentage: the keys are exactly the types present, and each value is that type's total. |
| Dict.Get | main.py:43 | `d.get(k, default)` returns the default when the key is absent, and otherwise the value stored under the key. |
| Dict.Set | main.py:43 | `d[k] = v` keeps the keys in place when k is present and appends k otherwise. It keeps keys distinct, stores v under k, and leaves every other entry's value as it was. |
| Dict.GetSetSame | main.py:43 | Reading back a key just written yields the written value. |
| Dict.GetSetOther | main.py:43 | Writing one key leaves every other key's lookup unchanged. |
| Dict.SumValuesSet | main.py:43-49 | Under `d[k] = v`, the sum of the values changes by exactly the replaced value (0 for a new key) taken out and v put in. |
| Dict.AddTo | main.py:43 | One step of the grouping loop, `d[k] = d.get(k, 0) + x`, raises the sum of the dictionary's values by exactly x. |
| Dict.GetAddTo | main.py:43 | After `d[k] = d.get(k, 0) + x`, the lookup of k has grown by x and every other lookup is unchanged. |
| Dict.ToMap | main.py:46 | The dictionary viewed as a map has exactly the dictionary's keys, and each key maps to its entry's value. |
| Risk.RiskOf | main.py:54-58 | The classification is total. High holds exactly for "Stocks", Low exactly for "Cash", and Medium exactly for "Bonds" and "Real Estate". Unknown holds exactly for every other type. |
| Risk.RiskAssessment | main.py:57-59 | The assessment has exactly one row per record, in portfolio order. Each row carries the record's name and type and the risk of that type. |
| Risk.FormTypesKnownRisk | main.py:74 | Records whose type is one of the four types the form offers never get the risk level Unknown. |

## Left out

- Rendering: every `st.write`, `st.warning`, `st.success` and `st.info` call and the `:.2f` formatting of amounts. The model returns the data those calls display (the total, the per-type dictionary, the warning flag, the risk rows, the pie input) instead of text.
- Chart drawing: the matplotlib figure construction and `st.pyplot`. That is a drawing library outside this model; only the label and size lists passed to it are modelled.
- The `main()` widget wiring and the `st.session_state` persistence. These are framework plumbing; the portfolio value a session holds is the `Portfolio` sequence, which starts empty.
- Floating point: sums and the `!= 100` comparison are over `real`. IEEE-754 rounding is not captured, so a float total that misses 100 only by rounding would raise the warning in the original but not in the model.
- Risk.RiskOf: the levels are a datatype (`High`, `Medium`, `Low`, `Unknown`) rather than the strings the original prints; the names are the same.
