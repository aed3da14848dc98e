/**
 * The report text for the ranked counties: an optional notice that fewer
 * counties exist than were asked for, a preamble naming the income policy,
 * then one numbered entry per shown county with ten currency lines.
 */
module Report {
  import opened Text
  import opened Projection

  // Fixed pieces of the report text. The literals are split where two
  // phrasings first differ, so that the difference is visible to the proofs.

  const Indent: string := "&nbsp;&nbsp;&nbsp;&nbsp;"
  const Tail: string := " for your family, along with what your budget might look living there:\n"
  const Singular: string := "here is the most affordable count" + "y" + Tail
  const NormClause: string := "With both" + " your spending and income recalculated based on each county's norm"
  const RecalculatedOpening: string := NormClause + ", "
  const CappedLead: string := NormClause + " (and an income cap of "
  const MaintainedOpening: string :=
    "With your" + " exact income maintained but your spending recalculated based on each county's norm, "

  function Notice(count: int): string {
    "There are only " + IntToString(count) + " counties to show!\n\n"
  }

  function Plural(limit: int): string {
    "here are the " + IntToString(limit) + " most affordable countie" + "s" + Tail
  }

  function SecondLine(limit: int): string {
    if limit == 1 then Singular else Plural(limit)
  }

  function CappedOpening(amount: int): string {
    CappedLead + Dol(amount) + "), "
  }

  function Opening(c: Constraints): string {
    if !c.bringIncome && !c.incomeCap then RecalculatedOpening
    else if c.bringIncome then MaintainedOpening
    else CappedOpening(c.incomeCapAmount)
  }

  function Preamble(c: Constraints, limit: int): string {
    Opening(c) + SecondLine(limit)
  }

  predicate EndsWith(s: string, t: string) {
    |t| <= |s| && s[|s| - |t|..] == t
  }

  /** The preamble names exactly one of the three income policies. */
  lemma PreamblePolicy(c: Constraints, limit: int)
    ensures RecalculatedOpening <= Preamble(c, limit) <==> !c.bringIncome && !c.incomeCap
    ensures MaintainedOpening <= Preamble(c, limit) <==> c.bringIncome
    ensures CappedLead <= Preamble(c, limit) <==> !c.bringIncome && c.incomeCap
  {
    var p, o := Preamble(c, limit), Opening(c);
    var n := |NormClause|;
    OpeningsDiffer();
    PrefixOfConcat(o, SecondLine(limit));
    if !c.bringIncome && !c.incomeCap {
      PrefixClash(MaintainedOpening, RecalculatedOpening, p, 5);
      PrefixClash(CappedLead, RecalculatedOpening, p, n);
    } else if c.bringIncome {
      PrefixClash(RecalculatedOpening, MaintainedOpening, p, 5);
      PrefixClash(CappedLead, MaintainedOpening, p, 5);
    } else {
      PrefixOfConcat(CappedLead, Dol(c.incomeCapAmount) + "), ");
      assert CappedLead + (Dol(c.incomeCapAmount) + "), ") == o;
      PrefixTransitive(CappedLead, o, p);
      PrefixClash(RecalculatedOpening, CappedLead, p, n);
      PrefixClash(MaintainedOpening, CappedLead, p, 5);
    }
  }

  /** The income-cap preamble names the cap amount, as currency, right after its lead. */
  lemma CappedPreambleAmount(c: Constraints, limit: int)
    ensures !c.bringIncome && c.incomeCap ==> CappedLead + Dol(c.incomeCapAmount) + "), " <= Preamble(c, limit)
  {
    if !c.bringIncome && c.incomeCap {
      PrefixOfConcat(CappedOpening(c.incomeCapAmount), SecondLine(limit));
    }
  }

  /** Where the three openings first differ. */
  lemma OpeningsDiffer()
    ensures |NormClause| < |RecalculatedOpening| && |NormClause| < |CappedLead| && 5 < |MaintainedOpening|
    ensures RecalculatedOpening[5] == 'b' && MaintainedOpening[5] == 'y' && CappedLead[5] == 'b'
    ensures RecalculatedOpening[|NormClause|] == ',' && CappedLead[|NormClause|] == ' '
  {
  }

  /** Two strings that differ at position k are not both prefixes of one string. */
  lemma PrefixClash(a: string, b: string, s: string, k: nat)
    requires b <= s && k < |a| && k < |b| && a[k] != b[k]
    ensures !(a <= s)
  {
  }

  lemma PrefixOfConcat(a: string, b: string)
    ensures a <= a + b
  {
  }

  lemma PrefixTransitive(a: string, b: string, s: string)
    requires a <= b && b <= s
    ensures a <= s
  {
  }

  /** The preamble uses the singular phrasing exactly when one county is shown. */
  lemma PreambleNumber(c: Constraints, limit: int)
    ensures EndsWith(Preamble(c, limit), Singular) <==> limit == 1
  {
    var p := Preamble(c, limit);
    var t := |Tail|;
    assert Singular[|Singular| - t - 1] == 'y';
    if limit != 1 {
      var pl := Plural(limit);
      assert pl[|pl| - t - 1] == 's';
      assert p[|p| - t - 1] == 's';
      if |Singular| <= |p| {
        assert p[|p| - |Singular|..][|Singular| - t - 1] == 's';
      }
    }
  }

  /** The ten columns of an entry, in the order the report lists them. */
  datatype Column = Housing | Food | Transportation | Healthcare | Childcare
                  | OtherNecessities | Taxes | Total | Income | RemainingMoney

  const Columns: seq<Column> := [Housing, Food, Transportation, Healthcare, Childcare,
                                 OtherNecessities, Taxes, Total, Income, RemainingMoney]

  function Label(col: Column): string {
    match col
    case Housing => "Housing"
    case Food => "Food"
    case Transportation => "Transportation"
    case Healthcare => "Healthcare"
    case Childcare => "Childcare"
    case OtherNecessities => "Other necessities"
    case Taxes => "Taxes"
    case Total => "Total"
    case Income => "Income"
    case RemainingMoney => "Remaining money"
  }

  function Value(p: Projected, col: Column): int {
    match col
    case Housing => p.rec.housing
    case Food => p.rec.food
    case Transportation => p.rec.transportation
    case Healthcare => p.rec.healthcare
    case Childcare => p.rec.childcare
    case OtherNecessities => p.rec.otherNecessities
    case Taxes => p.rec.taxes
    case Total => p.rec.total
    case Income => p.rec.monthlyIncome
    case RemainingMoney => p.rec.remainingMoney
  }

  /** The cap lowered this county's income, so the report also shows the uncapped figure. */
  predicate ShowsUncapped(p: Projected, col: Column, incomeCap: bool) {
    col == Income && incomeCap && p.uncapped > p.rec.monthlyIncome
  }

  function FieldLine(p: Projected, col: Column, incomeCap: bool): string {
    if ShowsUncapped(p, col, incomeCap) then
      Indent + Label(col) + ": " + Dol(Value(p, col)) + " (Uncapped: " + Dol(p.uncapped) + ")"
    else
      Indent + Label(col) + ": " + Dol(Value(p, col))
  }

  /** A line ends in ')' exactly when it carries the uncapped income, and it then shows that figure. */
  lemma UncappedShown(p: Projected, col: Column, incomeCap: bool)
    ensures var line := FieldLine(p, col, incomeCap);
      && (line[|line| - 1] == ')' <==> col == Income && incomeCap && p.uncapped > p.rec.monthlyIncome)
      && (ShowsUncapped(p, col, incomeCap) ==>
            line == Indent + "Income: " + Dol(p.rec.monthlyIncome) + " (Uncapped: " + Dol(p.uncapped) + ")")
  {
    var amount := Dol(Value(p, col));
    LastOfConcat(Indent + Label(col) + ": ", amount);
    LastOfConcat(Indent + Label(col) + ": " + amount + " (Uncapped: " + Dol(p.uncapped), ")");
  }

  lemma LastOfConcat(a: string, b: string)
    requires |b| > 0
    ensures (a + b)[|a + b| - 1] == b[|b| - 1]
  {
  }

  function FieldLines(p: Projected, cols: seq<Column>, incomeCap: bool): (r: seq<string>)
    ensures |r| == |cols|
  {
    if cols == [] then []
    else FieldLines(p, cols[..|cols| - 1], incomeCap) + [FieldLine(p, cols[|cols| - 1], incomeCap)]
  }

  lemma FieldLinesSnoc(p: Projected, cols: seq<Column>, j: nat, incomeCap: bool)
    requires j < |cols|
    ensures FieldLines(p, cols[..j + 1], incomeCap) == FieldLines(p, cols[..j], incomeCap) + [FieldLine(p, cols[j], incomeCap)]
  {
    assert cols[..j + 1][..j] == cols[..j];
  }

  function Heading(i: nat, p: Projected): string {
    "\n#" + NatToString(i + 1) + "\n" + p.rec.countyState
  }

  /** Entry i: its number and county, then one line per column. */
  function Entry(i: nat, p: Projected, incomeCap: bool): string {
    Join([Heading(i, p)] + FieldLines(p, Columns, incomeCap), "\n")
  }

  /** Each entry opens with its number and its county label. */
  lemma EntryHeading(i: nat, p: Projected, incomeCap: bool)
    ensures Heading(i, p) <= Entry(i, p, incomeCap)
  {
  }

  /** The entries of the first `count` ranked counties. */
  function Entries(ranked: seq<Projected>, count: nat, incomeCap: bool): (r: seq<string>)
    requires count <= |ranked|
    ensures |r| == count
  {
    if count == 0 then [] else Entries(ranked, count - 1, incomeCap) + [Entry(count - 1, ranked[count - 1], incomeCap)]
  }

  /** Entry i of the list is the entry of the i-th ranked county, numbered i + 1. */
  lemma {:induction false} EntriesAt(ranked: seq<Projected>, count: nat, incomeCap: bool)
    requires count <= |ranked|
    ensures forall i :: 0 <= i < count ==> Entries(ranked, count, incomeCap)[i] == Entry(i, ranked[i], incomeCap)
  {
    if count > 0 {
      EntriesAt(ranked, count - 1, incomeCap);
      var front, last := Entries(ranked, count - 1, incomeCap), Entry(count - 1, ranked[count - 1], incomeCap);
      SnocAt(front, last);
    }
  }

  lemma SnocAt(front: seq<string>, last: string)
    ensures forall i :: 0 <= i < |front| ==> (front + [last])[i] == front[i]
    ensures (front + [last])[|front|] == last
  {
  }

  /** The clamped `limit` of the source: the requested count, but no more than there are rows. */
  function Limit(resultCount: int, available: nat): (r: int)
    ensures r <= available && r <= resultCount
    ensures r == available || r == resultCount
  {
    if resultCount > available then available else resultCount
  }

  /** How many entries `range(limit)` produces. */
  function Shown(resultCount: int, available: nat): (r: nat)
    ensures r <= available
    ensures resultCount >= 0 ==> r == if resultCount <= available then resultCount else available
    ensures resultCount < 0 ==> r == 0
  {
    var limit := Limit(resultCount, available);
    if limit < 0 then 0 else limit
  }

  /** The pieces that are joined with newlines into the report. */
  function Blocks(ranked: seq<Projected>, c: Constraints): seq<string> {
    Head(|ranked|, c) + Entries(ranked, Shown(c.resultCount, |ranked|), c.incomeCap)
  }

  /** The blocks before the entries: the optional notice and the preamble. */
  function Head(available: nat, c: Constraints): seq<string> {
    (if c.resultCount > available then [Notice(available)] else [])
    + [Preamble(c, Limit(c.resultCount, available))]
  }

  function ReportText(ranked: seq<Projected>, c: Constraints): string {
    Join(Blocks(ranked, c), "\n")
  }

  /**
   * The report lists min(result count, available) entries after the preamble, in
   * ranked order; entry i belongs to the i-th ranked county and is numbered i + 1.
   */
  lemma ReportEntries(ranked: seq<Projected>, c: Constraints)
    ensures var blocks, offset, n := Blocks(ranked, c), if c.resultCount > |ranked| then 2 else 1, Shown(c.resultCount, |ranked|);
      && |blocks| == offset + n
      && blocks[offset - 1] == Preamble(c, Limit(c.resultCount, |ranked|))
      && forall i :: 0 <= i < n ==> blocks[offset..][i] == Entry(i, ranked[i], c.incomeCap)
  {
    var n := Shown(c.resultCount, |ranked|);
    var head, entries := Head(|ranked|, c), Entries(ranked, n, c.incomeCap);
    HeadLayout(|ranked|, c);
    EntriesAt(ranked, n, c.incomeCap);
    assert (head + entries)[|head|..] == entries;
  }

  /**
   * The report text is the joined head, then, when any county is shown, a newline
   * and the joined entries.
   */
  lemma ReportTextLayout(ranked: seq<Projected>, c: Constraints)
    ensures var head, entries := Head(|ranked|, c), Entries(ranked, Shown(c.resultCount, |ranked|), c.incomeCap);
      ReportText(ranked, c) == if |entries| == 0 then Join(head, "\n") else Join(head, "\n") + "\n" + Join(entries, "\n")
  {
    var head, entries := Head(|ranked|, c), Entries(ranked, Shown(c.resultCount, |ranked|), c.incomeCap);
    HeadLayout(|ranked|, c);
    if |entries| == 0 {
      assert head + entries == head;
    } else {
      JoinAppend(head, entries, "\n");
    }
  }

  /** The head is the notice (when there is one), then the preamble. */
  lemma HeadLayout(available: nat, c: Constraints)
    ensures var head := Head(available, c);
      && |head| == (if c.resultCount > available then 2 else 1)
      && head[|head| - 1] == Preamble(c, Limit(c.resultCount, available))
      && (c.resultCount > available ==> head[0] == Notice(available))
  {
  }

  /** The report opens with the "only N counties" notice exactly when more were asked for than exist. */
  lemma NoticeWhenTruncated(ranked: seq<Projected>, c: Constraints)
    ensures Notice(|ranked|) <= ReportText(ranked, c) <==> c.resultCount > |ranked|
  {
    var blocks := Blocks(ranked, c);
    var limit := Limit(c.resultCount, |ranked|);
    var report := ReportText(ranked, c);
    assert Notice(|ranked|)[0] == 'T';
    if c.resultCount <= |ranked| {
      assert blocks[0] == Preamble(c, limit);
      assert Opening(c)[0] == 'W';
      assert report[0] == 'W';
    }
  }

  /** Builds the report as the source does: clamp the limit, append the notice and the preamble, then each entry. */
  method BuildReport(ranked: seq<Projected>, c: Constraints) returns (report: string)
    ensures report == ReportText(ranked, c)
  {
    var head, count := BuildHead(ranked, c);
    var countyResults := AppendEntries(head, ranked, count, c.incomeCap);
    report := Join(countyResults, "\n");
  }

  /** The loop over the first `count` ranked counties, appending each entry. */
  method AppendEntries(head: seq<string>, ranked: seq<Projected>, count: nat, incomeCap: bool)
    returns (countyResults: seq<string>)
    requires count <= |ranked|
    ensures countyResults == head + Entries(ranked, count, incomeCap)
  {
    countyResults := head;
    var i := 0;
    while i < count
      invariant 0 <= i <= count
      invariant countyResults == head + Entries(ranked, i, incomeCap)
    {
      var entry := BuildEntry(i, ranked[i], incomeCap);
      countyResults := countyResults + [entry];
      i := i + 1;
    }
  }

  /** The part of the report before the entries, and how many entries follow. */
  method BuildHead(ranked: seq<Projected>, c: Constraints) returns (head: seq<string>, count: nat)
    ensures count == Shown(c.resultCount, |ranked|)
    ensures head == Head(|ranked|, c)
  {
    head := [];
    var limit := c.resultCount;
    if limit > |ranked| {
      limit := |ranked|;
      head := head + [Notice(limit)];
    }
    var secondLine;
    if limit == 1 {
      secondLine := Singular;
    } else {
      secondLine := Plural(limit);
    }
    if !c.bringIncome && !c.incomeCap {
      head := head + [RecalculatedOpening + secondLine];
    } else if c.bringIncome {
      head := head + [MaintainedOpening + secondLine];
    } else {
      head := head + [CappedOpening(c.incomeCapAmount) + secondLine];
    }
    count := if limit < 0 then 0 else limit;
  }

  /** One entry: the heading line, then a line per column, joined with newlines. */
  method BuildEntry(i: nat, row: Projected, incomeCap: bool) returns (entry: string)
    ensures entry == Entry(i, row, incomeCap)
  {
    var lines := BuildFieldLines(row, Columns, incomeCap);
    entry := Join([Heading(i, row)] + lines, "\n");
  }

  /** The inner loop of the source: one formatted line per column, in order. */
  method BuildFieldLines(row: Projected, cols: seq<Column>, incomeCap: bool) returns (lines: seq<string>)
    ensures lines == FieldLines(row, cols, incomeCap)
  {
    lines := [];
    var j := 0;
    while j < |cols|
      invariant 0 <= j <= |cols|
      invariant lines == FieldLines(row, cols[..j], incomeCap)
    {
      var col := cols[j];
      var line;
      if col == Income && incomeCap && row.uncapped > row.rec.monthlyIncome {
        line := Indent + Label(col) + ": " + Dol(Value(row, col)) + " (Uncapped: " + Dol(row.uncapped) + ")";
      } else {
        line := Indent + Label(col) + ": " + Dol(Value(row, col));
      }
      FieldLinesSnoc(row, cols, j, incomeCap);
      lines := lines + [line];
      j := j + 1;
    }
    assert cols[..|cols|] == cols;
  }
}
