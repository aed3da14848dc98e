/**
 * The projection engine and the income policy: every row of the user's family
 * type gets the user's relative income and spending pattern reapplied to its
 * own baseline, with an optional income cap and an optional state filter.
 */
module Projection {
  import opened Rounding
  import opened Table
  import opened Deviation

  /** The comparison options the user sets. */
  datatype Constraints = Constraints(
    bringIncome: bool, incomeCap: bool, incomeCapAmount: int,
    includeAllStates: bool, statesAllowed: set<string>, resultCount: int)

  /** A table row with its projected columns, plus the income before the cap. */
  datatype Projected = Projected(rec: CountyRecord, uncapped: int)

  /**
   * A row as it enters the projection. The uncapped column does not exist yet;
   * it holds the baseline income until the snapshot overwrites it.
   */
  function Start(b: CountyRecord): Projected {
    Projected(b, b.monthlyIncome)
  }

  /** `column.mul(ratio).round(0)`: value times ratio/1000, to the nearest integer, ties to even. */
  function Scale(value: int, ratio: int): (r: int)
    ensures -1000 <= 2 * (value * ratio - 1000 * r) <= 1000
    ensures 2 * (value * ratio - 1000 * r) == 1000 || 2 * (value * ratio - 1000 * r) == -1000 ==> r % 2 == 0
    ensures ratio == 1000 ==> r == value
  {
    RoundHalfEvenExact(value, 1000);
    RoundHalfEven(value * ratio, 1000)
  }

  /** `Series.clip(upper=cap)`: the value, but never above the cap. */
  function Clip(x: int, cap: int): (r: int)
    ensures r <= x && r <= cap
    ensures r == x || r == cap
  {
    if x > cap then cap else x
  }

  /** The income policy applied to one row: set the income, take the snapshot, clip. */
  function WithIncome(p: Projected, u: UserBudget, incomeRatio: int, c: Constraints): (r: Projected)
    ensures c.bringIncome ==> r.uncapped == u.income
    ensures !c.bringIncome ==> r.uncapped == Scale(p.rec.monthlyIncome, incomeRatio)
    ensures r.rec.monthlyIncome <= r.uncapped
    ensures c.incomeCap ==> r.rec.monthlyIncome <= c.incomeCapAmount
    ensures !c.incomeCap || r.uncapped <= c.incomeCapAmount ==> r.rec.monthlyIncome == r.uncapped
    ensures c.incomeCap && r.uncapped > c.incomeCapAmount ==> r.rec.monthlyIncome == c.incomeCapAmount
    ensures r.rec == p.rec.(monthlyIncome := r.rec.monthlyIncome)
  {
    var income := if c.bringIncome then u.income else Scale(p.rec.monthlyIncome, incomeRatio);
    Projected(p.rec.(monthlyIncome := if c.incomeCap then Clip(income, c.incomeCapAmount) else income), income)
  }

  function SpendingTotal(r: CountyRecord): int {
    r.housing + r.food + r.transportation + r.healthcare + r.otherNecessities + r.childcare + r.taxes
  }

  /** The record invariant: total is the sum of the categories, remaining money is income minus total. */
  predicate Consistent(r: CountyRecord) {
    r.total == SpendingTotal(r) && r.remainingMoney == r.monthlyIncome - r.total
  }

  /** The spending projection applied to one row: scale the seven categories, then total and remaining money. */
  function WithSpending(p: Projected, ratios: Ratios): Projected
  {
    var b := p.rec;
    var scaled := b.(housing := Scale(b.housing, ratios.housing), food := Scale(b.food, ratios.food),
                     transportation := Scale(b.transportation, ratios.transportation),
                     healthcare := Scale(b.healthcare, ratios.healthcare),
                     otherNecessities := Scale(b.otherNecessities, ratios.otherNecessities),
                     childcare := Scale(b.childcare, ratios.childcare), taxes := Scale(b.taxes, ratios.taxes));
    var totalled := scaled.(total := SpendingTotal(scaled));
    Projected(totalled.(remainingMoney := totalled.monthlyIncome - totalled.total), p.uncapped)
  }

  /** Each category is its baseline scaled by its ratio; the record stays consistent; nothing else changes. */
  lemma WithSpendingProjects(p: Projected, ratios: Ratios)
    ensures var r := WithSpending(p, ratios);
      && r.rec.housing == Scale(p.rec.housing, ratios.housing)
      && r.rec.food == Scale(p.rec.food, ratios.food)
      && r.rec.transportation == Scale(p.rec.transportation, ratios.transportation)
      && r.rec.healthcare == Scale(p.rec.healthcare, ratios.healthcare)
      && r.rec.otherNecessities == Scale(p.rec.otherNecessities, ratios.otherNecessities)
      && r.rec.childcare == Scale(p.rec.childcare, ratios.childcare)
      && r.rec.taxes == Scale(p.rec.taxes, ratios.taxes)
      && Consistent(r.rec)
      && r.uncapped == p.uncapped
      && r.rec == p.rec.(housing := r.rec.housing, food := r.rec.food, transportation := r.rec.transportation,
                         healthcare := r.rec.healthcare, otherNecessities := r.rec.otherNecessities,
                         childcare := r.rec.childcare, taxes := r.rec.taxes, total := r.rec.total,
                         remainingMoney := r.rec.remainingMoney)
  {
  }

  /** What a projected record says about the baseline row it came from. */
  predicate ProjectedFrom(r: Projected, b: CountyRecord, u: UserBudget, ratios: Ratios, c: Constraints) {
    && r.rec.family == b.family && r.rec.stateAbbr == b.stateAbbr && r.rec.countyState == b.countyState
    && r.uncapped == (if c.bringIncome then u.income else Scale(b.monthlyIncome, ratios.income))
    && r.rec.monthlyIncome == (if c.incomeCap then Clip(r.uncapped, c.incomeCapAmount) else r.uncapped)
    && r.rec.housing == Scale(b.housing, ratios.housing)
    && r.rec.food == Scale(b.food, ratios.food)
    && r.rec.transportation == Scale(b.transportation, ratios.transportation)
    && r.rec.healthcare == Scale(b.healthcare, ratios.healthcare)
    && r.rec.otherNecessities == Scale(b.otherNecessities, ratios.otherNecessities)
    && r.rec.childcare == Scale(b.childcare, ratios.childcare)
    && r.rec.taxes == Scale(b.taxes, ratios.taxes)
    && Consistent(r.rec)
  }

  /** One baseline row, projected: income policy first, then spending. */
  function ProjectRow(b: CountyRecord, u: UserBudget, ratios: Ratios, c: Constraints): Projected {
    WithSpending(WithIncome(Start(b), u, ratios.income, c), ratios)
  }

  lemma ProjectRowProjects(b: CountyRecord, u: UserBudget, ratios: Ratios, c: Constraints)
    ensures ProjectedFrom(ProjectRow(b, u, ratios, c), b, u, ratios, c)
  {
    WithSpendingProjects(WithIncome(Start(b), u, ratios.income, c), ratios);
  }

  /** A row takes part in the ranking: right family type, and an allowed state unless all are. */
  predicate Eligible(b: CountyRecord, key: string, c: Constraints) {
    b.family == key && (c.includeAllStates || b.stateAbbr in c.statesAllowed)
  }

  /** Reference definition of the projected table: the eligible rows, each projected, in table order. */
  function ProjectTable(table: seq<CountyRecord>, key: string, u: UserBudget, ratios: Ratios, c: Constraints): (r: seq<Projected>)
    ensures |r| <= |table|
  {
    if table == [] then []
    else (if Eligible(table[0], key, c) then [ProjectRow(table[0], u, ratios, c)] else [])
         + ProjectTable(table[1..], key, u, ratios, c)
  }

  /** The projected table holds exactly the projections of the eligible rows. */
  lemma ProjectionMembers(table: seq<CountyRecord>, key: string, u: UserBudget, ratios: Ratios, c: Constraints, x: Projected)
    ensures x in ProjectTable(table, key, u, ratios, c) <==>
            exists k :: 0 <= k < |table| && Eligible(table[k], key, c) && x == ProjectRow(table[k], u, ratios, c)
  {
    if x in ProjectTable(table, key, u, ratios, c) {
      ProjectionSound(table, key, u, ratios, c, x);
    }
    if exists k :: 0 <= k < |table| && Eligible(table[k], key, c) && x == ProjectRow(table[k], u, ratios, c) {
      var k :| 0 <= k < |table| && Eligible(table[k], key, c) && x == ProjectRow(table[k], u, ratios, c);
      ProjectionComplete(table, key, u, ratios, c, k);
    }
  }

  /** Every projected row comes from an eligible row of the table. */
  lemma {:induction false} ProjectionSound(table: seq<CountyRecord>, key: string, u: UserBudget, ratios: Ratios, c: Constraints, x: Projected)
    requires x in ProjectTable(table, key, u, ratios, c)
    ensures exists k :: 0 <= k < |table| && Eligible(table[k], key, c) && x == ProjectRow(table[k], u, ratios, c)
  {
    var rest := table[1..];
    if x in ProjectTable(rest, key, u, ratios, c) {
      ProjectionSound(rest, key, u, ratios, c, x);
      var k :| 0 <= k < |rest| && Eligible(rest[k], key, c) && x == ProjectRow(rest[k], u, ratios, c);
      assert table[k + 1] == rest[k];
    }
  }

  /** Every eligible row of the table has its projection in the projected table. */
  lemma {:induction false} ProjectionComplete(table: seq<CountyRecord>, key: string, u: UserBudget, ratios: Ratios, c: Constraints, k: nat)
    requires k < |table| && Eligible(table[k], key, c)
    ensures ProjectRow(table[k], u, ratios, c) in ProjectTable(table, key, u, ratios, c)
  {
    if k > 0 {
      ProjectionComplete(table[1..], key, u, ratios, c, k - 1);
      assert table[1..][k - 1] == table[k];
    }
  }

  /** Projection keeps the table's order: it distributes over concatenation. */
  lemma {:induction false} ProjectionAppend(t1: seq<CountyRecord>, t2: seq<CountyRecord>, key: string, u: UserBudget, ratios: Ratios, c: Constraints)
    ensures ProjectTable(t1 + t2, key, u, ratios, c) == ProjectTable(t1, key, u, ratios, c) + ProjectTable(t2, key, u, ratios, c)
  {
    if t1 != [] {
      ProjectionAppend(t1[1..], t2, key, u, ratios, c);
      assert (t1 + t2)[1..] == t1[1..] + t2;
    } else {
      assert t1 + t2 == t2;
    }
  }

  // The column-wise steps of the pipeline, as functions on whole tables.

  /** `df.loc[df.family == key]`: the rows of one family type, in table order. */
  function FamilyRows(table: seq<CountyRecord>, key: string): (r: seq<CountyRecord>)
    ensures forall x :: x in r <==> x in table && x.family == key
    ensures |r| <= |table|
  {
    if table == [] then []
    else (if table[0].family == key then [table[0]] else []) + FamilyRows(table[1..], key)
  }

  function IncomeStep(rows: seq<CountyRecord>, u: UserBudget, incomeRatio: int, c: Constraints): (r: seq<Projected>)
    ensures |r| == |rows|
    ensures forall k :: 0 <= k < |rows| ==> r[k] == WithIncome(Start(rows[k]), u, incomeRatio, c)
  {
    if rows == [] then [] else [WithIncome(Start(rows[0]), u, incomeRatio, c)] + IncomeStep(rows[1..], u, incomeRatio, c)
  }

  function InStates(frame: seq<Projected>, allowed: set<string>): (r: seq<Projected>)
    ensures |r| <= |frame|
  {
    if frame == [] then []
    else (if frame[0].rec.stateAbbr in allowed then [frame[0]] else []) + InStates(frame[1..], allowed)
  }

  lemma {:induction false} InStatesMembers(frame: seq<Projected>, allowed: set<string>, x: Projected)
    ensures x in InStates(frame, allowed) <==> x in frame && x.rec.stateAbbr in allowed
  {
    if frame != [] {
      InStatesMembers(frame[1..], allowed, x);
      assert frame == [frame[0]] + frame[1..];
    }
  }

  /** The state filter: nothing is removed when all states are included. */
  function KeepStates(frame: seq<Projected>, c: Constraints): (r: seq<Projected>)
    ensures c.includeAllStates ==> r == frame
    ensures forall x :: x in r <==> x in frame && (c.includeAllStates || x.rec.stateAbbr in c.statesAllowed)
  {
    if c.includeAllStates then frame
    else
      assert forall x :: x in InStates(frame, c.statesAllowed) <==> x in frame && x.rec.stateAbbr in c.statesAllowed by {
        forall x {
          InStatesMembers(frame, c.statesAllowed, x);
        }
      }
      InStates(frame, c.statesAllowed)
  }

  /** The state filter keeps relative order: it distributes over concatenation. */
  lemma {:induction false} KeepStatesAppend(a: seq<Projected>, b: seq<Projected>, c: Constraints)
    ensures KeepStates(a + b, c) == KeepStates(a, c) + KeepStates(b, c)
  {
    if !c.includeAllStates {
      InStatesAppend(a, b, c.statesAllowed);
    }
  }

  lemma {:induction false} InStatesAppend(a: seq<Projected>, b: seq<Projected>, allowed: set<string>)
    ensures InStates(a + b, allowed) == InStates(a, allowed) + InStates(b, allowed)
  {
    if a == [] {
      assert a + b == b;
    } else {
      var head := if a[0].rec.stateAbbr in allowed then [a[0]] else [];
      InStatesAppend(a[1..], b, allowed);
      assert (a + b)[0] == a[0];
      assert (a + b)[1..] == a[1..] + b;
      calc {
        InStates(a + b, allowed);
        head + InStates(a[1..] + b, allowed);
        head + (InStates(a[1..], allowed) + InStates(b, allowed));
        (head + InStates(a[1..], allowed)) + InStates(b, allowed);
        InStates(a, allowed) + InStates(b, allowed);
      }
    }
  }

  function SpendingStep(frame: seq<Projected>, ratios: Ratios): (r: seq<Projected>)
    ensures |r| == |frame|
    ensures forall k :: 0 <= k < |frame| ==> r[k] == WithSpending(frame[k], ratios)
  {
    if frame == [] then [] else [WithSpending(frame[0], ratios)] + SpendingStep(frame[1..], ratios)
  }

  /** The column-wise pipeline of the source computes the reference projection. */
  lemma {:induction false} PipelineIsProjection(table: seq<CountyRecord>, key: string, u: UserBudget, ratios: Ratios, c: Constraints)
    ensures Pipeline(FamilyRows(table, key), u, ratios, c) == ProjectTable(table, key, u, ratios, c)
  {
    if table != [] {
      var b, rest := table[0], table[1..];
      PipelineIsProjection(rest, key, u, ratios, c);
      var head := if b.family == key then [b] else [];
      assert FamilyRows(table, key) == head + FamilyRows(rest, key);
      PipelineAppend(head, FamilyRows(rest, key), u, ratios, c);
      PipelineOfOne(b, key, u, ratios, c);
    }
  }

  /** The steps after the family selection, in the source's order. */
  function Pipeline(rows: seq<CountyRecord>, u: UserBudget, ratios: Ratios, c: Constraints): seq<Projected> {
    SpendingStep(KeepStates(IncomeStep(rows, u, ratios.income, c), c), ratios)
  }

  lemma PipelineAppend(a: seq<CountyRecord>, b: seq<CountyRecord>, u: UserBudget, ratios: Ratios, c: Constraints)
    ensures Pipeline(a + b, u, ratios, c) == Pipeline(a, u, ratios, c) + Pipeline(b, u, ratios, c)
  {
    var ia, ib := IncomeStep(a, u, ratios.income, c), IncomeStep(b, u, ratios.income, c);
    IncomeStepAppend(a, b, u, ratios.income, c);
    KeepStatesAppend(ia, ib, c);
    SpendingStepAppend(KeepStates(ia, c), KeepStates(ib, c), ratios);
  }

  lemma IncomeStepAppend(a: seq<CountyRecord>, b: seq<CountyRecord>, u: UserBudget, incomeRatio: int, c: Constraints)
    ensures IncomeStep(a + b, u, incomeRatio, c) == IncomeStep(a, u, incomeRatio, c) + IncomeStep(b, u, incomeRatio, c)
  {
    var whole, parts := IncomeStep(a + b, u, incomeRatio, c), IncomeStep(a, u, incomeRatio, c) + IncomeStep(b, u, incomeRatio, c);
    forall k | 0 <= k < |whole| ensures whole[k] == parts[k] {
      if k < |a| {
        assert (a + b)[k] == a[k];
      } else {
        assert (a + b)[k] == b[k - |a|];
      }
    }
  }

  lemma SpendingStepAppend(a: seq<Projected>, b: seq<Projected>, ratios: Ratios)
    ensures SpendingStep(a + b, ratios) == SpendingStep(a, ratios) + SpendingStep(b, ratios)
  {
    var whole, parts := SpendingStep(a + b, ratios), SpendingStep(a, ratios) + SpendingStep(b, ratios);
    forall k | 0 <= k < |whole| ensures whole[k] == parts[k] {
      if k < |a| {
        assert (a + b)[k] == a[k];
      } else {
        assert (a + b)[k] == b[k - |a|];
      }
    }
  }

  lemma PipelineOfOne(b: CountyRecord, key: string, u: UserBudget, ratios: Ratios, c: Constraints)
    ensures Pipeline(if b.family == key then [b] else [], u, ratios, c)
            == if Eligible(b, key, c) then [ProjectRow(b, u, ratios, c)] else []
  {
    if b.family == key {
      var inc := IncomeStep([b], u, ratios.income, c);
      assert inc == [WithIncome(Start(b), u, ratios.income, c)];
      if !c.includeAllStates {
        assert inc[1..] == [];
      }
    }
  }

  /** Sets the income columns of every row of the frame (income, uncapped snapshot, cap). */
  method ApplyIncomePolicy(frame: array<Projected>, u: UserBudget, incomeRatio: int, c: Constraints)
    modifies frame
    ensures forall k :: 0 <= k < frame.Length ==> frame[k] == WithIncome(old(frame[k]), u, incomeRatio, c)
  {
    var k := 0;
    while k < frame.Length
      invariant 0 <= k <= frame.Length
      invariant forall j :: 0 <= j < k ==> frame[j] == WithIncome(old(frame[j]), u, incomeRatio, c)
      invariant forall j :: k <= j < frame.Length ==> frame[j] == old(frame[j])
    {
      var row := frame[k].rec;
      var income := if c.bringIncome then u.income else Scale(row.monthlyIncome, incomeRatio);
      var uncapped := income;
      if c.incomeCap {
        income := Clip(income, c.incomeCapAmount);
      }
      frame[k] := Projected(row.(monthlyIncome := income), uncapped);
      k := k + 1;
    }
  }

  /** Scales the seven categories of every row of the frame, then recomputes total and remaining money. */
  method ApplySpending(frame: array<Projected>, ratios: Ratios)
    modifies frame
    ensures forall k :: 0 <= k < frame.Length ==> frame[k] == WithSpending(old(frame[k]), ratios)
  {
    var k := 0;
    while k < frame.Length
      invariant 0 <= k <= frame.Length
      invariant forall j :: 0 <= j < k ==> frame[j] == WithSpending(old(frame[j]), ratios)
      invariant forall j :: k <= j < frame.Length ==> frame[j] == old(frame[j])
    {
      var row := frame[k].rec;
      row := row.(housing := Scale(row.housing, ratios.housing));
      row := row.(food := Scale(row.food, ratios.food));
      row := row.(transportation := Scale(row.transportation, ratios.transportation));
      row := row.(healthcare := Scale(row.healthcare, ratios.healthcare));
      row := row.(otherNecessities := Scale(row.otherNecessities, ratios.otherNecessities));
      row := row.(childcare := Scale(row.childcare, ratios.childcare));
      row := row.(taxes := Scale(row.taxes, ratios.taxes));
      row := row.(total := row.housing + row.food + row.transportation + row.healthcare
                           + row.otherNecessities + row.childcare + row.taxes);
      row := row.(remainingMoney := row.monthlyIncome - row.total);
      frame[k] := frame[k].(rec := row);
      k := k + 1;
    }
  }
}
