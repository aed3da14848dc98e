/**
 * Text helpers shared by the model: decimal rendering of integers, Python's
 * thousands grouping (the `,` format option), the `dol` currency formatter,
 * `str.zfill` and `str.join`.
 */
module Text {
  import opened Wrappers

  predicate IsDigit(c: char) {
    '0' <= c <= '9'
  }

  predicate AllDigits(s: string) {
    forall i :: 0 <= i < |s| ==> IsDigit(s[i])
  }

  function DigitChar(d: nat): (c: char)
    requires d < 10
    ensures IsDigit(c) && c as int - '0' as int == d
  {
    (d + '0' as int) as char
  }

  /** Decimal rendering of a natural number, as `str(n)` gives it. */
  function NatToString(n: nat): (s: string)
    ensures |s| >= 1 && AllDigits(s)
    ensures s[0] == '0' ==> n == 0
    decreases n
  {
    if n < 10 then [DigitChar(n)] else NatToString(n / 10) + [DigitChar(n % 10)]
  }

  /** Decimal rendering of an integer, with a leading '-' when negative. */
  function IntToString(i: int): (s: string)
    ensures |s| >= 1
  {
    if i < 0 then "-" + NatToString(-i) else NatToString(i)
  }

  /** The number a string of decimal digits denotes. */
  function DigitsValue(s: string): nat
    requires AllDigits(s)
  {
    if s == [] then 0 else 10 * DigitsValue(s[..|s| - 1]) + (s[|s| - 1] as int - '0' as int)
  }

  lemma {:induction false} NatToStringRoundTrip(n: nat)
    ensures DigitsValue(NatToString(n)) == n
  {
    if n >= 10 {
      var s := NatToString(n / 10);
      NatToStringRoundTrip(n / 10);
      assert (s + [DigitChar(n % 10)])[..|s|] == s;
    }
  }

  /** Different numbers have different renderings. */
  lemma NatToStringInjective(m: nat, n: nat)
    requires NatToString(m) == NatToString(n)
    ensures m == n
  {
    NatToStringRoundTrip(m);
    NatToStringRoundTrip(n);
  }

  function Zeros(k: nat): (z: string)
    ensures |z| == k && AllDigits(z)
    ensures forall i :: 0 <= i < k ==> z[i] == '0'
  {
    if k == 0 then "" else "0" + Zeros(k - 1)
  }

  /** Leading zeros do not change the number a digit string denotes. */
  lemma {:induction false} LeadingZeros(k: nat, s: string)
    requires AllDigits(s)
    ensures AllDigits(Zeros(k) + s) && DigitsValue(Zeros(k) + s) == DigitsValue(s)
  {
    if s == [] {
      assert Zeros(k) + s == Zeros(k);
      ZerosValue(k);
    } else {
      var t := s[..|s| - 1];
      LeadingZeros(k, t);
      assert (Zeros(k) + s)[..|Zeros(k) + s| - 1] == Zeros(k) + t;
    }
  }

  lemma {:induction false} ZerosValue(k: nat)
    ensures DigitsValue(Zeros(k)) == 0
  {
    if k > 0 {
      ZerosValue(k - 1);
      var z := Zeros(k);
      assert z[..k - 1] == Zeros(k - 1);
    }
  }

  /**
   * Python's `str.zfill(width)`: pad on the left with '0' up to `width`,
   * keeping a leading sign in front of the padding.
   */
  function ZFill(s: string, width: int): (r: string)
    ensures |r| == if |s| >= width then |s| else width
    ensures |s| >= width ==> r == s
    ensures |s| < width && !(|s| > 0 && (s[0] == '+' || s[0] == '-')) ==> r == Zeros(width - |s|) + s
  {
    if |s| >= width then s
    else if |s| > 0 && (s[0] == '+' || s[0] == '-') then [s[0]] + Zeros(width - |s|) + s[1..]
    else Zeros(width - |s|) + s
  }

  /** Zero-filling a digit string keeps the number it denotes. */
  lemma ZFillDigits(s: string, width: int)
    requires AllDigits(s)
    ensures AllDigits(ZFill(s, width)) && DigitsValue(ZFill(s, width)) == DigitsValue(s)
  {
    if |s| < width {
      assert |s| > 0 ==> IsDigit(s[0]);
      LeadingZeros(width - |s|, s);
    }
  }

  /** Insert a ',' between every group of three digits, counted from the right. */
  function Group(ds: string): (r: string)
    ensures |ds| > 0 ==> |r| > 0 && r[0] == ds[0] && r[|r| - 1] == ds[|ds| - 1]
    decreases |ds|
  {
    if |ds| <= 3 then ds else Group(ds[..|ds| - 3]) + "," + ds[|ds| - 3..]
  }

  /**
   * Where the separators go: one comma for every full group of three digits
   * after the first, and a position holds a comma exactly when a multiple of
   * four characters, counting it, remain from there to the end.
   */
  lemma {:induction false} GroupShape(ds: string)
    requires |ds| > 0 && AllDigits(ds)
    ensures |Group(ds)| == |ds| + (|ds| - 1) / 3
    ensures forall i :: 0 <= i < |Group(ds)| ==> (Group(ds)[i] == ',' <==> (|Group(ds)| - i) % 4 == 0)
    decreases |ds|
  {
    if |ds| > 3 {
      var front, back := ds[..|ds| - 3], ds[|ds| - 3..];
      var g := Group(front);
      var r := g + "," + back;
      assert Group(ds) == r;
      assert AllDigits(front) by {
        forall k | 0 <= k < |front| ensures IsDigit(front[k]) {
          assert front[k] == ds[k];
        }
      }
      assert AllDigits(back) by {
        forall k | 0 <= k < |back| ensures IsDigit(back[k]) {
          assert back[k] == ds[|ds| - 3 + k];
        }
      }
      GroupShape(front);
      CommaCount(|ds|);
      CommaAfterGroups(g, back);
    }
  }

  /** A comma and three digits after a correctly grouped prefix keep the positions of the commas right. */
  lemma CommaAfterGroups(g: string, back: string)
    requires forall i :: 0 <= i < |g| ==> (g[i] == ',' <==> (|g| - i) % 4 == 0)
    requires |back| == 3 && AllDigits(back)
    ensures var r := g + "," + back;
      forall i :: 0 <= i < |r| ==> (r[i] == ',' <==> (|r| - i) % 4 == 0)
  {
    var r := g + "," + back;
    forall i | 0 <= i < |r| ensures r[i] == ',' <==> (|r| - i) % 4 == 0 {
      if i < |g| {
        assert r[i] == g[i];
        ShiftByFour(|g| - i);
      } else if i > |g| {
        assert r[i] == back[i - |g| - 1];
      }
    }
  }

  /** Three more digits add one more comma. */
  lemma CommaCount(n: int)
    requires n > 3
    ensures (n - 3) + (n - 4) / 3 + 4 == n + (n - 1) / 3
  {
  }

  lemma ShiftByFour(k: int)
    ensures (k + 4) % 4 == k % 4
  {
  }

  function RemoveCommas(s: string): string {
    if s == [] then [] else RemoveCommas(s[..|s| - 1]) + (if s[|s| - 1] == ',' then [] else [s[|s| - 1]])
  }

  lemma {:induction false} RemoveCommasAppend(a: string, b: string)
    ensures RemoveCommas(a + b) == RemoveCommas(a) + RemoveCommas(b)
  {
    if b == [] {
      assert a + b == a;
    } else {
      var b' := b[..|b| - 1];
      RemoveCommasAppend(a, b');
      assert (a + b)[..|a + b| - 1] == a + b';
    }
  }

  lemma {:induction false} RemoveCommasOfDigits(s: string)
    requires AllDigits(s)
    ensures RemoveCommas(s) == s
  {
    if s != [] {
      RemoveCommasOfDigits(s[..|s| - 1]);
    }
  }

  /** Grouping only adds separators: removing them gives the digits back. */
  lemma {:induction false} GroupRoundTrip(ds: string)
    requires AllDigits(ds)
    ensures RemoveCommas(Group(ds)) == ds
    decreases |ds|
  {
    if |ds| <= 3 {
      RemoveCommasOfDigits(ds);
    } else {
      var front, back := ds[..|ds| - 3], ds[|ds| - 3..];
      var g := Group(front);
      assert Group(ds) == g + "," + back;
      GroupRoundTrip(front);
      RemoveCommasAppend(g + ",", back);
      RemoveCommasAppend(g, ",");
      assert RemoveCommas(",") == [] by {
        assert ","[..0] == [];
      }
      RemoveCommasOfDigits(back);
      assert front + back == ds;
    }
  }

  function Abs(v: int): nat {
    if v < 0 then -v else v
  }

  /** The `dol` formatter: `'${:0,}'.format(v)`, a dollar sign and the grouped integer. */
  function Dol(v: int): (r: string)
    ensures |r| >= 2 && r[0] == '$' && IsDigit(r[|r| - 1])
  {
    "$" + (if v < 0 then "-" else "") + Group(NatToString(Abs(v)))
  }

  /** Reads back a currency amount in the format Dol produces. */
  function ParseDol(s: string): Option<int> {
    if |s| == 0 || s[0] != '$' then None else ParseSigned(s[1..])
  }

  /** An optional minus, then grouped digits. */
  function ParseSigned(b: string): Option<int> {
    if |b| > 0 && b[0] == '-' then
      match ParseGroupedDigits(b[1..])
      case None => None
      case Some(m) => Some(-m)
    else ParseGroupedDigits(b)
  }

  /** Digits with thousands separators. */
  function ParseGroupedDigits(t: string): Option<int> {
    var digits := RemoveCommas(t);
    if |digits| == 0 || !AllDigits(digits) then None else Some(DigitsValue(digits))
  }

  /** The currency text reads back as the amount it shows. */
  lemma DolRoundTrip(v: int)
    ensures ParseDol(Dol(v)) == Some(v)
  {
    var ds := NatToString(Abs(v));
    NatToStringRoundTrip(Abs(v));
    GroupedDigitsRoundTrip(ds);
    DollarRoundTrip(v < 0, Group(ds), Abs(v));
  }

  /** A dollar sign and an optional minus in front of grouped digits read back with that sign. */
  lemma DollarRoundTrip(negative: bool, g: string, m: int)
    requires |g| > 0 && IsDigit(g[0]) && ParseGroupedDigits(g) == Some(m)
    ensures ParseDol("$" + (if negative then "-" else "") + g) == Some(if negative then -m else m)
  {
    var s := "$" + (if negative then "-" else "") + g;
    if negative {
      assert s[1..] == "-" + g;
      assert s[1..][1..] == g;
    } else {
      assert s[1..] == g;
    }
  }

  /** Grouped digits read back as the value of the digits. */
  lemma GroupedDigitsRoundTrip(ds: string)
    requires |ds| > 0 && AllDigits(ds)
    ensures ParseGroupedDigits(Group(ds)) == Some(DigitsValue(ds) as int)
  {
    GroupRoundTrip(ds);
  }

  /** Python's `sep.join(parts)`. */
  function Join(parts: seq<string>, sep: string): (r: string)
    ensures |parts| > 0 ==> parts[0] <= r
    ensures |parts| > 1 ==> parts[0] + sep <= r
  {
    if |parts| == 0 then ""
    else if |parts| == 1 then parts[0]
    else parts[0] + sep + Join(parts[1..], sep)
  }

  /** Joining two non-empty lists is joining each and putting the separator between them. */
  lemma {:induction false} JoinAppend(a: seq<string>, b: seq<string>, sep: string)
    requires |a| > 0 && |b| > 0
    ensures Join(a + b, sep) == Join(a, sep) + sep + Join(b, sep)
  {
    if |a| > 1 {
      assert (a + b)[1..] == a[1..] + b;
      JoinAppend(a[1..], b, sep);
    }
  }
}
