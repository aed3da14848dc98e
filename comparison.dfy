/**
 * The comparison entry point: find the user's baseline row, derive the
 * deviation ratios from it, project every row of the user's family type,
 * rank the projections by remaining money and write the report.
 */
module Comparison {
  import opened Wrappers
  import opened Table
  import opened Deviation
  import opened Projection
  import opened Ranking
  import opened Report
  import opened Text

  /** The ranked projected table and the report text built from it. */
  datatype RankedCounties = RankedCounties(ranked: seq<Projected>, report: string)

  /**
   * `calculate_comparison`: fails with NotFound exactly when the table has no row
   * for the user's county and family type; otherwise the ranking is the reference
   * projection, reordered by non-increasing remaining money, and the report is
   * the text of that ranking.
   */
  method CalculateComparison(table: seq<CountyRecord>, u: UserBudget, c: Constraints)
    returns (outcome: Result<RankedCounties, Error>)
    ensures FindBaseline(table, u.county, FamilyKey(u.parents, u.children)).None? <==> outcome == Failure(NotFound)
    ensures outcome.Success? ==>
      var key := FamilyKey(u.parents, u.children);
      var base := table[FindBaseline(table, u.county, key).value];
      var ranked := outcome.value.ranked;
      && multiset(ranked) == multiset(ProjectTable(table, key, u, Deviations(base, u), c))
      && NonIncreasing(ranked)
      && outcome.value.report == ReportText(ranked, c)
  {
    var key := FamilyKey(u.parents, u.children);
    var found := FindBaseline(table, u.county, key);
    if found.None? {
      return Failure(NotFound);
    }
    var ratios := Deviations(table[found.value], u);
    var projected := ProjectFamily(table, key, u, ratios, c);
    var ranked := SortByRemaining(projected);
    var report := BuildReport(ranked, c);
    return Success(RankedCounties(ranked, report));
  }

  /**
   * The column-wise steps on a frame: select the family's rows, apply the income
   * policy, filter the states, scale the spending. The result is the reference
   * projection of the table.
   */
  method ProjectFamily(table: seq<CountyRecord>, key: string, u: UserBudget, ratios: Ratios, c: Constraints)
    returns (projected: seq<Projected>)
    ensures projected == ProjectTable(table, key, u, ratios, c)
  {
    var rows := FamilyRows(table, key);
    var incomes := IncomeFrame(rows, u, ratios.income, c);
    var kept := KeepStates(incomes, c);
    projected := SpendingFrame(kept, ratios);
    PipelineIsProjection(table, key, u, ratios, c);
  }

  /** A frame of the selected rows with the income policy applied in place. */
  method IncomeFrame(rows: seq<CountyRecord>, u: UserBudget, incomeRatio: int, c: Constraints)
    returns (incomes: seq<Projected>)
    ensures incomes == IncomeStep(rows, u, incomeRatio, c)
  {
    var frame := new Projected[|rows|](k requires 0 <= k < |rows| => Start(rows[k]));
    ApplyIncomePolicy(frame, u, incomeRatio, c);
    incomes := frame[..];
    var expected := IncomeStep(rows, u, incomeRatio, c);
    forall k | 0 <= k < |rows| ensures incomes[k] == expected[k] {
    }
  }

  /** A frame of the filtered rows with the spending columns scaled in place. */
  method SpendingFrame(kept: seq<Projected>, ratios: Ratios) returns (spent: seq<Projected>)
    ensures spent == SpendingStep(kept, ratios)
  {
    var frame := new Projected[|kept|](k requires 0 <= k < |kept| => kept[k]);
    ApplySpending(frame, ratios);
    spent := frame[..];
    var expected := SpendingStep(kept, ratios);
    forall k | 0 <= k < |kept| ensures spent[k] == expected[k] {
    }
  }

  /**
   * Every ranked county is the projection of an eligible table row: it is of the
   * user's family type, in an allowed state, its income follows the policy and
   * the cap, and its total and remaining money agree with its columns.
   */
  lemma RankedAreProjections(table: seq<CountyRecord>, key: string, u: UserBudget, ratios: Ratios, c: Constraints,
                             ranked: seq<Projected>, x: Projected)
    requires multiset(ranked) == multiset(ProjectTable(table, key, u, ratios, c))
    requires x in ranked
    ensures exists k :: 0 <= k < |table| && Eligible(table[k], key, c) && ProjectedFrom(x, table[k], u, ratios, c)
    ensures x.rec.family == key
    ensures !c.includeAllStates ==> x.rec.stateAbbr in c.statesAllowed
    ensures x.rec.monthlyIncome <= x.uncapped
    ensures c.incomeCap ==> x.rec.monthlyIncome <= c.incomeCapAmount
    ensures c.bringIncome ==> x.uncapped == u.income
    ensures Consistent(x.rec)
  {
    assert x in multiset(ranked);
    ProjectionMembers(table, key, u, ratios, c, x);
    var k :| 0 <= k < |table| && Eligible(table[k], key, c) && x == ProjectRow(table[k], u, ratios, c);
    ProjectRowProjects(table[k], u, ratios, c);
  }

  /** An empty ranking still carries a report: the notice that there are 0 counties, then the preamble. */
  lemma NothingToRank(c: Constraints)
    requires c.resultCount > 0
    ensures ReportText([], c) == Notice(0) + "\n" + Preamble(c, 0)
  {
    var blocks := Blocks([], c);
    assert Entries([], 0, c.incomeCap) == [];
    assert blocks == [Notice(0), Preamble(c, 0)];
    assert blocks[1..] == [Preamble(c, 0)];
    assert Join(blocks[1..], "\n") == Preamble(c, 0);
  }
}
