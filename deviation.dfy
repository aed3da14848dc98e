/**
 * The deviation calculator: how far the user's income and spending are from
 * the baseline row of their own county and family type, as ratios.
 * A ratio is an integer number of thousandths (1000 stands for 1.0), which is
 * exactly what `1 + round(x, 3)` can produce.
 */
module Deviation {
  import opened Wrappers
  import opened Rounding
  import opened Text
  import opened Table

  /** What the user enters: their county, household and monthly budget. */
  datatype UserBudget = UserBudget(
    county: string, parents: nat, children: nat,
    income: int, housing: int, food: int, transportation: int,
    healthcare: int, childcare: int, otherNecessities: int, taxes: int)

  datatype Error = NotFound

  /** One ratio per column of the baseline, each in thousandths. */
  datatype Ratios = Ratios(
    income: int, housing: int, food: int, transportation: int,
    healthcare: int, childcare: int, otherNecessities: int, taxes: int)

  datatype BudgetComparison = BudgetComparison(ratios: Ratios, total: Option<int>)

  /** r thousandths is the nearest thousandth to user / base, ties going to even. */
  predicate NearestThousandth(r: int, user: int, base: int) {
    && Abs(2 * (1000 * user - r * base)) <= Abs(base)
    && (Abs(2 * (1000 * user - r * base)) == Abs(base) ==> r % 2 == 0)
  }

  /**
   * `calculate_percentage`: 1.0 for a zero baseline, otherwise
   * 1 + round((user - base) / base, 3), in thousandths.
   */
  function Ratio(user: int, base: int): (r: int)
    ensures base == 0 ==> r == 1000
    ensures user == base ==> r == 1000
    ensures base != 0 ==> NearestThousandth(r, user, base)
  {
    if base == 0 then 1000
    else
      var n := if base > 0 then 1000 * (user - base) else -1000 * (user - base);
      var d := Abs(base);
      var q := RoundHalfEven(n, d);
      RatioOfRounded(user, base, n, q);
      1000 + q
  }

  lemma RatioOfRounded(user: int, base: int, n: int, q: int)
    requires base != 0
    requires n == if base > 0 then 1000 * (user - base) else -1000 * (user - base)
    requires q == RoundHalfEven(n, Abs(base))
    ensures NearestThousandth(1000 + q, user, base)
    ensures user == base ==> q == 0
  {
    var d: int := Abs(base);
    var e := n - q * d;
    assert -d <= 2 * e <= d;
    Distribute(q, base);
    if base > 0 {
      assert q * d == q * base;
    } else {
      Negate(q, base);
    }
    if user == base {
      RoundHalfEvenExact(0, d);
    }
  }

  lemma Distribute(q: int, b: int)
    ensures (1000 + q) * b == 1000 * b + q * b
  {
  }

  lemma Negate(q: int, b: int)
    ensures q * -b == -(q * b)
  {
  }

  /** The seven spending amounts the user entered, added up. */
  function Spending(u: UserBudget): int {
    u.housing + u.food + u.transportation + u.healthcare + u.childcare + u.otherNecessities + u.taxes
  }

  /** The ratios of the user's income and of each category against one baseline row. */
  function Deviations(base: CountyRecord, u: UserBudget): Ratios {
    Ratios(
      Ratio(u.income, base.monthlyIncome), Ratio(u.housing, base.housing), Ratio(u.food, base.food),
      Ratio(u.transportation, base.transportation), Ratio(u.healthcare, base.healthcare),
      Ratio(u.childcare, base.childcare), Ratio(u.otherNecessities, base.otherNecessities),
      Ratio(u.taxes, base.taxes))
  }

  /**
   * The total ratio, computed from the sum of the user's spending and with no
   * zero guard: a zero baseline total gives a non-finite float, here None.
   */
  function TotalRatio(spending: int, baseTotal: int): (r: Option<int>)
    ensures r.None? <==> baseTotal == 0
    ensures r.Some? ==> NearestThousandth(r.value, spending, baseTotal)
  {
    if baseTotal == 0 then None else Some(Ratio(spending, baseTotal))
  }

  /** `calculate_budget_percentage`: the ratios against the user's own baseline row. */
  function BudgetPercentage(table: seq<CountyRecord>, u: UserBudget): (r: Result<BudgetComparison, Error>)
    ensures r.Failure? <==> forall j :: 0 <= j < |table| ==> !Matches(table[j], u.county, FamilyKey(u.parents, u.children))
    ensures r.Failure? ==> r.error == NotFound
    ensures r.Success? ==>
      var base := table[FindBaseline(table, u.county, FamilyKey(u.parents, u.children)).value];
      && r.value.ratios == Deviations(base, u)
      && r.value.total == TotalRatio(Spending(u), base.total)
  {
    match FindBaseline(table, u.county, FamilyKey(u.parents, u.children))
    case None => Failure(NotFound)
    case Some(i) =>
      var base := table[i];
      Success(BudgetComparison(Deviations(base, u), TotalRatio(Spending(u), base.total)))
  }

  /** A budget identical to the baseline gives the unit ratio everywhere. */
  lemma UnchangedBudgetIsUnitRatios(base: CountyRecord, u: UserBudget)
    requires u.income == base.monthlyIncome && u.housing == base.housing && u.food == base.food
    requires u.transportation == base.transportation && u.healthcare == base.healthcare
    requires u.childcare == base.childcare && u.otherNecessities == base.otherNecessities
    requires u.taxes == base.taxes
    ensures Deviations(base, u) == Ratios(1000, 1000, 1000, 1000, 1000, 1000, 1000, 1000)
  {
  }

  lemma RatioExamples()
    ensures Ratio(1200, 1000) == 1200
    ensures Ratio(5, 0) == 1000
    ensures TotalRatio(2700, 3000) == Some(900)
  {
  }
}
