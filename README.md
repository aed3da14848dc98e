# Affordable County Locator — a verified model of the budget engine

The application compares a family's monthly budget with a typical budget for
its county and family type, taken from the Economic Policy Institute's Family
Budget Calculator table. It then ranks every county in the country by how much
money the same family would have left over there. This project models that
engine in Dafny and proves properties of it:

- **Table** (`table.dfy`) handles the per-row derivations that load the table:
  - the missing-income estimate of 55122;
  - the FIPS code zero-padded to five characters;
  - the `"County, ST"` label;
  - monthly income as annual income over 12, rounded;
  - remaining money as income minus total.

  It also covers the `"<parents>p<children>c"` family key and the lookup of the
  baseline row.
- **Deviation** (`deviation.dfy`) computes the ratio of the user's figure to the
  baseline figure:
  - 1 when the baseline is zero;
  - otherwise 1 plus the relative change rounded to three decimals.

  It also computes the total ratio, which has no zero guard.
- **Projection** (`projection.dfy`) applies the ratios to every row of the same
  family type, in two forms:
  - as functions on whole tables;
  - as the source's in-place column updates on an array frame.

  Each row goes through the income policy, an optional state filter, the seven
  scaled spending categories, then the recomputed total and remaining money. The
  income policy has three steps: the literal user income or the scaled income;
  an uncapped snapshot; an optional upper clip.
- **Ranking** (`ranking.dfy`) sorts by non-increasing remaining money.
- **Report** (`report.dfy`) builds the text:
  - the "There are only N counties" notice;
  - one of three preambles, in singular or plural phrasing;
  - one numbered entry per shown county, with ten currency lines and the
    uncapped figure when the cap lowered the income.
- **Comparison** (`comparison.dfy`) is the whole `calculate_comparison`
  operation.
- **Rounding** (`rounding.dfy`) and **Text** (`text.dfy`) provide the shared
  pieces:
  - half-to-even rounding of a rational number;
  - decimal rendering;
  - `str.zfill`;
  - the `'${:0,}'` currency format;
  - `'\n'.join`.

Ratios are integer thousandths: a ratio of `1.2` is `1200`. Scaling a value by a
ratio is `value * ratio / 1000`, rounded to the nearest integer with ties to
even. Both Python's `round` and pandas' `.round(0)` round ties to even. Money is
an unbounded `int`.

Behaviour of the code that the model keeps:

- Rounding is half-to-even, as Python's `round` and numpy's `round` are.
- The sort is pandas' default quicksort, which is not stable. The model
  therefore promises a sorted permutation, not the preservation of tied rows'
  order.
- A non-positive result count or a negative cap is not rejected. A count of
  zero or less gives a report with no entries.
- An empty filtered set is not a special case. With a positive result count it
  yields the notice "There are only 0 counties to show!" followed by the
  preamble.
- The income cap applies whenever it is switched on, even with "maintain income
  exactly". The preamble then still names the maintained income.
- A zero baseline total makes the total ratio a non-finite float rather than an
  error. It is modelled as `None`.
- A missing baseline row raises a `KeyError` in the source: `df[column][0]` on
  an empty selection fails, and `calculate_comparison` does not catch it. The
  model returns `NotFound`, or `None` from the lookup, instead.

## Model

| member | source | states |
|---|---|---|
| Rounding.RoundHalfEven | app.py:109 | the result is within half a unit of n/d, and a tie goes to the even neighbour |
| Rounding.RoundHalfEvenUnique | app.py:39 | those two properties determine the rounded value uniquely |
| Rounding.RoundHalfEvenExact | app.py:199-205 | an exact multiple rounds to its quotient, so a unit ratio leaves a value unchanged |
| Text.NatToString | app.py:50 | definition: the decimal digits of a natural number (stated by Text.NatToStringRoundTrip) |
| Text.IntToString | app.py:213-217 | definition: `str` of an integer, with a leading `-` when negative, as `{limit}` prints the count |
| Text.NatToStringRoundTrip | app.py:50 | the decimal rendering of a natural number reads back as that number |
| Text.NatToStringInjective | app.py:50 | different numbers render differently |
| Text.ZFill | app.py:30 | `str.zfill`: the result has at least the requested width, and a long enough string is unchanged |
| Text.ZFillDigits | app.py:30 | padding a digit string keeps it all digits with the same value |
| Text.Group | app.py:50 | definition: thousands separators inserted every three digits from the right (stated by Text.GroupShape and Text.GroupRoundTrip) |
| Text.GroupShape | app.py:50 | grouped digits hold one comma per full group of three after the first, and a position holds a comma exactly when the characters from it to the end number a multiple of four, so a comma precedes every third digit from the right |
| Text.GroupRoundTrip | app.py:50 | the thousands separators of the currency format only insert commas: removing them gives back the digits |
| Text.Dol | app.py:49-50 | the currency text starts with `$` and ends with a digit |
| Text.DolRoundTrip | app.py:49-50 | the currency text parses back to the amount, so different amounts render differently |
| Text.GroupedDigitsRoundTrip | app.py:50 | digits with thousands separators read back as the value of the digits |
| Text.Join | app.py:236-237 | the joined text starts with the first part, followed by the separator when there are more parts |
| Text.JoinAppend | app.py:236-237 | joining two non-empty lists is joining each, with the separator between them, so later parts follow in order |
| Table.CountyState | app.py:37 | definition: the label `county + ", " + state` (its injectivity is Table.CountyStateInjective) |
| Table.CountyStateInjective | app.py:36-37 | with two-letter state codes, the `county, ST` label determines the county and the state |
| Table.Fips | app.py:30 | the FIPS text is five or more digits whose value is the numeric code |
| Table.DeriveRecord | app.py:25-41 | a missing income becomes 55122; monthly income is the annual income over 12, rounded half to even; remaining money is monthly income minus total; the label is `Table.CountyState` of the county and state; the FIPS text is `Table.Fips` of the code, five or more digits reading back as the code; the other columns are copied |
| Table.GetData | app.py:15-42 | the loop derives each row of the cleaned table from the same raw row |
| Table.FamilyKey | app.py:54 | definition: the key `<parents>p<children>c` (its injectivity is Table.FamilyKeyInjective) |
| Table.FamilyKeyInjective | app.py:54 | the family key determines the number of parents and children |
| Table.FirstMatch | app.py:55 | the first index at or after `from` with the county and family, or None when there is none |
| Table.FindBaseline | app.py:55 | the baseline is the first row for the county and family; None exactly when no row matches |
| Deviation.Ratio | app.py:105-109 | a zero baseline gives exactly 1000; equal values give 1000; otherwise the result is the nearest thousandth of user/base, ties to even |
| Deviation.Deviations | app.py:117-124 | definition: the eight per-category ratios of the user's figures against the baseline row (each ratio's meaning is Deviation.Ratio's contract) |
| Deviation.Spending | app.py:125-126 | definition: the user's spending is the sum of the seven spending categories |
| Deviation.TotalRatio | app.py:125-126 | None exactly when the baseline total is zero; otherwise the nearest thousandth of spending/total |
| Deviation.BudgetPercentage | app.py:112-126 | fails with NotFound exactly when no row matches; otherwise the eight ratios and the total ratio are taken against the first matching row |
| Deviation.UnchangedBudgetIsUnitRatios | app.py:105-109 | a budget equal to its baseline has every ratio equal to 1 |
| Deviation.RatioExamples | app.py:105-126 | 1200 against 1000 is 1.200; 5 against 0 is 1.0 (the general zero-baseline case is Deviation.Ratio's); spending 2700 against a total of 3000 is 0.900 |
| Projection.Scale | app.py:199-205 | the scaled value is within half a unit of value × ratio / 1000, a tie goes to even, and a unit ratio leaves it unchanged |
| Projection.Clip | app.py:196 | the clipped value is the smaller of the value and the cap |
| Projection.WithIncome | app.py:190-196 | the uncapped figure is the user's income or the scaled income; with the cap, the income is the lesser of that figure and the cap; without it, the income equals the figure; no other column changes |
| Projection.WithSpending | app.py:199-207 | definition: scale the seven categories, then recompute total and remaining money (stated by Projection.WithSpendingProjects) |
| Projection.WithSpendingProjects | app.py:199-207 | each category is its scaled baseline; total is the sum of the seven; remaining money is income minus total; income and the uncapped figure are kept |
| Projection.ProjectRow | app.py:190-207 | definition: the income policy, then the spending scaling, of one row (stated by Projection.ProjectRowProjects) |
| Projection.ProjectRowProjects | app.py:189-207 | a projected row follows the income policy and the spending scaling of its baseline and is internally consistent |
| Projection.Eligible | app.py:189-198 | definition: the row is of the user's family type, and in an allowed state unless all states are included (used by Projection.ProjectionMembers, ProjectionSound and ProjectionComplete) |
| Projection.ProjectTable | app.py:189-207 | the reference projection has no more rows than the table (its meaning is stated by Projection.ProjectionMembers, Projection.ProjectionAppend and Projection.PipelineIsProjection) |
| Projection.ProjectionMembers | app.py:189-198 | the projected table holds exactly the projections of the rows of the user's family type in an allowed state |
| Projection.ProjectionSound | app.py:189-198 | every projected row is the projection of an eligible row |
| Projection.ProjectionComplete | app.py:189-198 | every eligible row has its projection in the projected table |
| Projection.ProjectionAppend | app.py:197-198 | the projection keeps the table's order: it distributes over concatenation |
| Projection.FamilyRows | app.py:189 | the selected rows are exactly the table's rows of the family type |
| Projection.IncomeStep | app.py:190-196 | each row of the frame gets the income policy |
| Projection.InStates | app.py:198 | definition: the rows whose state is in the allowed list, in order (stated by Projection.InStatesMembers) |
| Projection.InStatesMembers | app.py:198 | the `isin` filter keeps exactly the rows in an allowed state |
| Projection.KeepStates | app.py:197-198 | with all states included nothing is removed; otherwise exactly the rows in allowed states remain |
| Projection.KeepStatesAppend | app.py:197-198 | the state filter keeps relative order |
| Projection.SpendingStep | app.py:199-207 | each row of the frame gets the spending scaling |
| Projection.Pipeline | app.py:190-207 | definition: the income step, the state filter, then the spending step on the family's rows (stated by Projection.PipelineIsProjection and Projection.PipelineAppend) |
| Projection.PipelineIsProjection | app.py:189-207 | the column-wise steps in the source's order (family selection, income, state filter, spending) compute the row-wise reference projection |
| Projection.ApplyIncomePolicy | app.py:190-196 | the in-place loop leaves every row of the frame equal to its income-policy image |
| Projection.ApplySpending | app.py:199-207 | the in-place loop leaves every row of the frame equal to its spending-scaled image |
| Ranking.Insert | app.py:208 | inserting into a sorted sequence keeps it non-increasing in remaining money and adds exactly that element |
| Ranking.HeadIsLargest | app.py:208 | the first element of a sorted sequence has the most remaining money |
| Ranking.SortByRemaining | app.py:208 | the result is non-increasing in remaining money and a permutation of the input |
| Report.Notice | app.py:213 | definition: the text "There are only N counties to show!" and a blank line (stated by Report.NoticeWhenTruncated) |
| Report.SecondLine | app.py:214-217 | definition: the singular sentence when the limit is 1, the plural one naming the limit otherwise (stated by Report.PreambleNumber) |
| Report.Opening | app.py:218-226 | definition: the opening for the recalculated, the maintained-income or the income-cap policy (stated by Report.PreamblePolicy) |
| Report.CappedOpening | app.py:225 | definition: the income-cap opening naming the cap amount as currency (stated by Report.PreamblePolicy and Report.CappedPreambleAmount) |
| Report.CappedPreambleAmount | app.py:225-226 | with the cap on and income not maintained, the preamble starts with the cap lead followed by the cap amount as currency |
| Report.Preamble | app.py:214-226 | definition: the policy opening, then the singular or plural second line (stated by Report.PreamblePolicy and Report.PreambleNumber) |
| Report.PreamblePolicy | app.py:218-226 | the preamble is the "recalculated" one exactly when neither toggle is set, the "exact income maintained" one exactly when income is maintained, the "income cap" one otherwise |
| Report.PreambleNumber | app.py:214-217 | the preamble uses the singular phrasing exactly when the limit is 1 |
| Report.FieldLine | app.py:232-235 | definition: `label: amount`, with ` (Uncapped: amount)` on a capped income line (stated by Report.UncappedShown) |
| Report.UncappedShown | app.py:232-235 | a field line ends with the uncapped figure exactly when it is the income line, the cap is on and the cap lowered the income |
| Report.FieldLinesSnoc | app.py:229-235 | the lines for one more column are the earlier lines plus that column's line |
| Report.Heading | app.py:228 | definition: a newline, `#` and the entry's number, a newline and the `county, ST` label (stated by Report.EntryHeading) |
| Report.FieldLines | app.py:229-235 | definition: one field line per column, in column order (stated by Report.FieldLinesSnoc and Report.BuildFieldLines) |
| Report.Entry | app.py:228-236 | definition: the heading and the field lines of all ten columns, joined with newlines (stated by Report.EntryHeading and Report.EntriesAt) |
| Report.EntryHeading | app.py:228 | each entry opens with its number and its `county, ST` label |
| Report.Entries | app.py:227-236 | the list holds exactly `count` entries (their contents are stated by Report.EntriesAt) |
| Report.EntriesAt | app.py:227-236 | entry i is the entry of the i-th ranked county, numbered i + 1 |
| Report.Limit | app.py:210-212 | the clamped limit is the smaller of the result count and the available counties (the count actually shown is Report.Shown's) |
| Report.Shown | app.py:210-227 | the number of entries is min(result count, available counties) for a non-negative result count and 0 for a negative one, and never more than available |
| Report.Head | app.py:209-226 | definition: the optional notice, then the preamble (stated by Report.HeadLayout) |
| Report.HeadLayout | app.py:210-226 | the blocks before the entries are the notice (only when more counties were asked for than exist) and then the preamble |
| Report.ReportEntries | app.py:209-237 | the report holds the optional notice, the preamble, then exactly that many entries, entry i being the i-th ranked county's |
| Report.Blocks | app.py:209-236 | definition: the `county_results` list, the head then the entries (stated by Report.HeadLayout and Report.ReportEntries) |
| Report.ReportText | app.py:209-237 | definition: the head and the entries joined with newlines (stated by Report.ReportTextLayout, Report.ReportEntries and Report.NoticeWhenTruncated) |
| Report.ReportTextLayout | app.py:237 | the report text is the joined head, then, when any county is shown, a newline and the joined entries |
| Report.NoticeWhenTruncated | app.py:210-213 | the report starts with the "There are only N counties" notice exactly when more counties were asked for than exist |
| Report.BuildReport | app.py:209-237 | the report built by the source's appends and joins is the report text of the ranking |
| Report.BuildHead | app.py:209-226 | the clamping of the limit and the appends produce the head blocks, and the loop bound is the number of entries shown |
| Report.AppendEntries | app.py:227-236 | the outer loop appends the entries of the first `count` ranked counties |
| Report.BuildEntry | app.py:228-236 | the heading line and the field lines, joined with newlines, are the entry text |
| Report.BuildFieldLines | app.py:229-235 | the inner loop over the columns, with its branch on the capped income, builds one field line per column, in order |
| Comparison.CalculateComparison | app.py:174-237 | NotFound exactly when the user's county and family have no row; otherwise the ranking is a sorted permutation of the reference projection and the report is the text of that ranking |
| Comparison.ProjectFamily | app.py:189-207 | the array steps compute the reference projection |
| Comparison.IncomeFrame | app.py:189-196 | a frame of the selected rows with the income policy applied in place equals the income step |
| Comparison.SpendingFrame | app.py:199-207 | a frame of the filtered rows with the spending scaled in place equals the spending step |
| Comparison.RankedAreProjections | app.py:189-207 | every ranked county is of the user's family type and in an allowed state; its income is capped and never above its uncapped figure; its uncapped figure equals the user's income when that is maintained; its total and remaining money agree with its columns |
| Comparison.NothingToRank | app.py:210-213 | with no candidates and a positive result count, the report is the "only 0 counties" notice followed by the preamble |

## Left out

- Panel widgets, `pn.bind` reactivity, the submit-button callbacks and the page template: these are user-interface wiring. The "County information is required" guard belongs there too.
- Reading the workbook from a URL and dropping columns by position: this is I/O. The model takes the raw rows as `Table.SourceRow` values.
- Missing values other than the income figure: `fillna(55122)` touches every column, but only the income column has a missing entry, so the model types every other column as present.
- `calculate_model`, the typical-budget paragraph: only its lookup, `Table.FindBaseline`, is modelled. Its wording is not.
- The percentage text of `calculate_budget_percentage` (`{:.1%}`, and "N/A" for childcare when there are no children): this is float formatting. `Deviation.BudgetPercentage` returns the ratios the text is made from.
- `calculate_bar` and the bar chart: the function repeats the projection pipeline verbatim before drawing with matplotlib. The pipeline is modelled once. The chart is left out.
- IEEE-754 effects of `round(x, 3)` and `.mul(ratio)` on binary floats: the model uses exact thousandths and rational rounding.
- Report.CappedOpening: the income-cap preamble formats the cap with `:,.0f`, which goes through a float. The model renders the cap exactly with `Dol`, so it does not capture the float rounding of a very large cap.
- 64-bit integer overflow in `astype('int64')`: the model uses unbounded integers.
- The `astype('int64')` cast of the annual median income, which truncates a fractional figure: `Table.SourceRow.medianFamilyIncome` is already an integer, so the model takes the sheet's income as whole dollars and does not model the truncation.
- The chained `new_df.median_monthly_family_income.clip(upper=…, inplace=True)`: the model takes it to write the clipped income back into the frame, as pandas does without copy-on-write. Under copy-on-write the frame would keep the uncapped income, and the cap would change nothing.
- Ranking.SortByRemaining: promises only a sorted permutation. It does not say how pandas' default quicksort orders rows with equal remaining money, because that order is not specified.
- Projection.ProjectTable: its own contract states only the length bound. Its meaning is stated by `Projection.ProjectionMembers`, `Projection.ProjectionAppend` and `Projection.PipelineIsProjection`.
