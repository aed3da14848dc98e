/**
 * The reference table: one cleaned record per county and family type, the
 * per-row derivations made when the spreadsheet is loaded, the family key
 * and the lookup of the user's baseline row.
 */
module Table {
  import opened Wrappers
  import opened Rounding
  import opened Text

  /** Median income written in for the one county whose income is missing. */
  const MissingIncomeEstimate: int := 55122

  /** A spreadsheet row after the unneeded columns are dropped, before derivation. */
  datatype SourceRow = SourceRow(
    stateAbbr: string, countyFips: nat, county: string, family: string,
    housing: int, food: int, transportation: int, healthcare: int,
    otherNecessities: int, childcare: int, taxes: int, total: int,
    medianFamilyIncome: Option<int>,
    numCountiesInState: int, stCostRank: int, stMedAffRank: int, stIncomeRank: int)

  /** A record of the reference table; incomes and costs are monthly except the annual median. */
  datatype CountyRecord = CountyRecord(
    stateAbbr: string, fips: string, county: string, family: string,
    housing: int, food: int, transportation: int, healthcare: int,
    otherNecessities: int, childcare: int, taxes: int, total: int,
    medianFamilyIncome: int,
    numCountiesInState: int, stCostRank: int, stMedAffRank: int, stIncomeRank: int,
    countyState: string, monthlyIncome: int, remainingMoney: int)

  /** The label that disambiguates same-named counties: "<county>, <state>". */
  function CountyState(county: string, stateAbbr: string): string {
    county + ", " + stateAbbr
  }

  /** Two-letter state codes make the label determine the county and the state. */
  lemma CountyStateInjective(c1: string, s1: string, c2: string, s2: string)
    requires |s1| == 2 && |s2| == 2
    requires CountyState(c1, s1) == CountyState(c2, s2)
    ensures c1 == c2 && s1 == s2
  {
    var l := CountyState(c1, s1);
    assert c1 == l[..|l| - 4] && s1 == l[|l| - 2..];
    assert c2 == l[..|l| - 4] && s2 == l[|l| - 2..];
  }

  /** The FIPS code as text, zero-padded to five characters. */
  function Fips(code: nat): (r: string)
    ensures |r| == if |NatToString(code)| >= 5 then |NatToString(code)| else 5
    ensures AllDigits(r) && DigitsValue(r) == code
  {
    var s := NatToString(code);
    NatToStringRoundTrip(code);
    ZFillDigits(s, 5);
    ZFill(s, 5)
  }

  /** The derived columns of one row of the loaded table. */
  function DeriveRecord(row: SourceRow): (r: CountyRecord)
    ensures r.medianFamilyIncome == if row.medianFamilyIncome.Some? then row.medianFamilyIncome.value else MissingIncomeEstimate
    ensures -12 <= 2 * (r.medianFamilyIncome - 12 * r.monthlyIncome) <= 12
    ensures 2 * (r.medianFamilyIncome - 12 * r.monthlyIncome) == 12 || 2 * (r.medianFamilyIncome - 12 * r.monthlyIncome) == -12
            ==> r.monthlyIncome % 2 == 0
    ensures r.remainingMoney == r.monthlyIncome - r.total
    ensures r.fips == Fips(row.countyFips)
    ensures r.countyState == CountyState(row.county, row.stateAbbr)
    ensures r.stateAbbr == row.stateAbbr && r.county == row.county && r.family == row.family
    ensures r.housing == row.housing && r.food == row.food && r.transportation == row.transportation
    ensures r.healthcare == row.healthcare && r.otherNecessities == row.otherNecessities
    ensures r.childcare == row.childcare && r.taxes == row.taxes && r.total == row.total
    ensures r.numCountiesInState == row.numCountiesInState && r.stCostRank == row.stCostRank
    ensures r.stMedAffRank == row.stMedAffRank && r.stIncomeRank == row.stIncomeRank
  {
    var annual := if row.medianFamilyIncome.Some? then row.medianFamilyIncome.value else MissingIncomeEstimate;
    var monthly := RoundHalfEven(annual, 12);
    CountyRecord(
      row.stateAbbr, Fips(row.countyFips), row.county, row.family,
      row.housing, row.food, row.transportation, row.healthcare,
      row.otherNecessities, row.childcare, row.taxes, row.total,
      annual,
      row.numCountiesInState, row.stCostRank, row.stMedAffRank, row.stIncomeRank,
      CountyState(row.county, row.stateAbbr), monthly, monthly - row.total)
  }

  /** Loads the cleaned table row by row. */
  method GetData(raw: seq<SourceRow>) returns (table: seq<CountyRecord>)
    ensures |table| == |raw|
    ensures forall i :: 0 <= i < |raw| ==> table[i] == DeriveRecord(raw[i])
  {
    table := [];
    var i := 0;
    while i < |raw|
      invariant 0 <= i <= |raw|
      invariant |table| == i
      invariant forall j :: 0 <= j < i ==> table[j] == DeriveRecord(raw[j])
    {
      var record := DeriveRecord(raw[i]);
      table := table + [record];
      i := i + 1;
    }
  }

  /** The family-composition key "<parents>p<children>c". */
  function FamilyKey(parents: nat, children: nat): string {
    NatToString(parents) + "p" + NatToString(children) + "c"
  }

  /** Different compositions never share a key. */
  lemma FamilyKeyInjective(p1: nat, c1: nat, p2: nat, c2: nat)
    requires FamilyKey(p1, c1) == FamilyKey(p2, c2)
    ensures p1 == p2 && c1 == c2
  {
    var a1, a2 := NatToString(p1), NatToString(p2);
    var b1, b2 := NatToString(c1), NatToString(c2);
    var k := FamilyKey(p1, c1);
    KeySeparator(p1, c1);
    KeySeparator(p2, c2);
    assert |a1| == |a2|;
    assert a1 == k[..|a1|] == a2;
    NatToStringInjective(p1, p2);
    assert b1 == k[|a1| + 1..|k| - 1] == b2;
    NatToStringInjective(c1, c2);
  }

  /** In a family key the first 'p' follows the parents' digits. */
  lemma KeySeparator(parents: nat, children: nat)
    ensures FamilyKey(parents, children)[|NatToString(parents)|] == 'p'
    ensures forall i :: 0 <= i < |NatToString(parents)| ==> FamilyKey(parents, children)[i] != 'p'
  {
    var a := NatToString(parents);
    forall i | 0 <= i < |a| ensures FamilyKey(parents, children)[i] != 'p' {
      assert FamilyKey(parents, children)[i] == a[i] && IsDigit(a[i]);
    }
  }

  predicate Matches(r: CountyRecord, countyState: string, family: string) {
    r.countyState == countyState && r.family == family
  }

  /** Position of the first row of the table at or after `from` for the county and family. */
  function FirstMatch(table: seq<CountyRecord>, countyState: string, family: string, from: nat): (r: Option<nat>)
    requires from <= |table|
    ensures r.Some? ==> (from <= r.value < |table| && Matches(table[r.value], countyState, family)
                         && forall j :: from <= j < r.value ==> !Matches(table[j], countyState, family))
    ensures r.None? ==> forall j :: from <= j < |table| ==> !Matches(table[j], countyState, family)
    decreases |table| - from
  {
    if from == |table| then None
    else if Matches(table[from], countyState, family) then Some(from)
    else FirstMatch(table, countyState, family, from + 1)
  }

  /** The baseline row: the first row for the county and family; None when there is none. */
  function FindBaseline(table: seq<CountyRecord>, countyState: string, family: string): (r: Option<nat>)
    ensures r.Some? ==> (r.value < |table| && Matches(table[r.value], countyState, family)
                         && forall j :: 0 <= j < r.value ==> !Matches(table[j], countyState, family))
    ensures r.None? <==> forall j :: 0 <= j < |table| ==> !Matches(table[j], countyState, family)
  {
    FirstMatch(table, countyState, family, 0)
  }
}
