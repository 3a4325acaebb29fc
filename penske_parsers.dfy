/** The result-text parsers of the rental adapter: included miles and the
    leading amount of a price text. Both are leftmost regular-expression
    searches, written out here as scans over the characters. */
module PenskeParsers {
  import opened Prelude
  import opened Text

  /** Length of the run of ASCII digits starting at `i`. */
  function DigitRun(s: string, i: nat): (n: nat)
    requires i <= |s|
    ensures i + n <= |s|
    ensures forall k :: i <= k < i + n ==> IsDigit(s[k])
    ensures i + n == |s| || !IsDigit(s[i + n])
    decreases |s| - i
  {
    if i < |s| && IsDigit(s[i]) then 1 + DigitRun(s, i + 1) else 0
  }

  /** The longest digit run the miles pattern accepts. */
  const MaxMileDigits: nat := 6

  /** `(\d{1,6})\s*mile` matches at `i`: the digit run starting there has
      one to six digits (a longer run leaves a digit where the pattern
      needs whitespace or "mile"), and after it and any whitespace comes
      "mile". */
  predicate MilesMatchAt(t: string, i: nat) {
    i < |t| && 1 <= DigitRun(t, i) <= MaxMileDigits && MileAt(t, SkipSpaces(t, i + DigitRun(t, i)))
  }

  /** The word "mile" starts at `p`. */
  predicate MileAt(t: string, p: nat) {
    p + 4 <= |t| && t[p] == 'm' && t[p + 1] == 'i' && t[p + 2] == 'l' && t[p + 3] == 'e'
  }

  /** The leftmost match position at or after `i`, or -1. */
  function MilesMatchFrom(t: string, i: nat): (j: int)
    requires i <= |t|
    ensures j == -1 || i <= j < |t|
    ensures j == -1 ==> forall k :: i <= k < |t| ==> !MilesMatchAt(t, k)
    ensures 0 <= j ==> MilesMatchAt(t, j) && forall k :: i <= k < j ==> !MilesMatchAt(t, k)
    decreases |t| - i
  {
    if i == |t| then -1
    else if MilesMatchAt(t, i) then i
    else MilesMatchFrom(t, i + 1)
  }

  lemma {:induction false} Pow10Monotone(a: nat, b: nat)
    requires a <= b
    ensures Pow10(a) <= Pow10(b)
    decreases b
  {
    if a < b {
      Pow10Monotone(a, b - 1);
    }
  }

  /** At most six digits denote at most 999999. */
  lemma MileDigitsBound(ds: string)
    requires AllDigits(ds) && |ds| <= MaxMileDigits
    ensures DigitsValue(ds) <= 999999
  {
    DigitsValueBound(ds);
    Pow10Monotone(|ds|, MaxMileDigits);
    assert Pow10(3) == 1000;
  }

  /** The figure a match at `j` captures: its digit run read as a number,
      below a million. */
  function MatchedMiles(t: string, j: nat): (n: int)
    requires MilesMatchAt(t, j)
    ensures 0 <= n <= 999999
  {
    var digits := t[j..j + DigitRun(t, j)];
    MileDigitsBound(digits);
    DigitsValue(digits)
  }

  /** The figure of the leftmost match in already-lowered text; none when
      nothing matches. */
  function MilesIn(t: string): (r: Option<int>)
    ensures r.None? <==> forall k :: 0 <= k < |t| ==> !MilesMatchAt(t, k)
    ensures r.Some? ==> exists j ::
      0 <= j < |t| && MilesMatchAt(t, j) && (forall k :: 0 <= k < j ==> !MilesMatchAt(t, k))
      && r.value == MatchedMiles(t, j)
  {
    var j := MilesMatchFrom(t, 0);
    if j == -1 then None else Some(MatchedMiles(t, j))
  }

  /** `_parse_miles`: no text, or text mentioning "unlimited" in any case,
      gives no figure; otherwise the figure of the leftmost match in the
      lowered text. */
  function ParseMiles(text: Option<string>): (r: Option<int>)
    ensures text.None? || text.value == [] ==> r.None?
    ensures text.Some? && Contains(Lower(text.value), "unlimited") ==> r.None?
    ensures text.Some? && text.value != [] && !Contains(Lower(text.value), "unlimited") ==>
      r == MilesIn(Lower(text.value))
    ensures r.Some? ==> 0 <= r.value <= 999999
  {
    if text.None? || text.value == [] then None
    else
      var t := Lower(text.value);
      if Contains(t, "unlimited") then None else MilesIn(t)
  }

  /** Lowering leaves digits, the space and lower-case letters alone. */
  lemma LowerMilesText(d: string)
    requires AllDigits(d)
    ensures Lower(d + " miles") == d + " miles"
  {
    var s := d + " miles";
    assert forall k :: 0 <= k < |s| ==> LowerChar(s[k]) == s[k];
  }

  /** A run of one to six digits from `i` to `e`, then a space and "mile",
      is a match at `i` capturing exactly that run. */
  lemma RunMatches(t: string, i: nat, e: nat)
    requires i < e && e - i <= MaxMileDigits && e + 5 <= |t|
    requires forall k :: i <= k < e ==> IsDigit(t[k])
    requires t[e] == ' ' && MileAt(t, e + 1)
    ensures MilesMatchAt(t, i)
    ensures MatchedMiles(t, i) == DigitsValue(t[i..e])
  {
    DigitRunFrom(t, i, e);
    assert SkipSpaces(t, e) == e + 1 by {
      assert IsSpace(t[e]) && !IsSpace(t[e + 1]);
    }
  }

  /** Text without a `u` never mentions "unlimited". */
  lemma NoUnlimited(t: string)
    requires 'u' !in t
    ensures !Contains(t, "unlimited")
  {
    forall i | 0 <= i <= |t| - 9
      ensures !OccursAt(t, "unlimited", i)
    {
      assert t[i] in t;
    }
  }

  /** A match at the very start is the leftmost one. */
  lemma MilesInAtStart(t: string)
    requires MilesMatchAt(t, 0)
    ensures MilesIn(t) == Some(MatchedMiles(t, 0))
  {
    assert MilesMatchFrom(t, 0) == 0;
  }

  /** Digits followed by " miles" are neither changed by lowering nor
      mention "unlimited": parsing reduces to the search. */
  lemma DigitsMilesPlain(d: string)
    requires AllDigits(d)
    ensures ParseMiles(Some(d + " miles")) == MilesIn(d + " miles")
  {
    var t := d + " miles";
    LowerMilesText(d);
    assert forall k :: 0 <= k < |t| ==> t[k] != 'u';
    NoUnlimited(t);
  }

  /** The search finds one to six digits followed by " miles" at the start. */
  lemma DigitsMilesMatch(d: string)
    requires AllDigits(d) && 1 <= |d| <= MaxMileDigits
    ensures MilesIn(d + " miles") == Some(DigitsValue(d))
  {
    var t := d + " miles";
    assert t[|d|..] == " miles";
    assert MileAt(t, |d| + 1);
    RunMatches(t, 0, |d|);
    assert t[0..|d|] == d;
    MilesInAtStart(t);
  }

  /** One to six digits followed by " miles" read as their value. */
  lemma DigitsMiles(d: string)
    requires AllDigits(d) && 1 <= |d| <= MaxMileDigits
    ensures ParseMiles(Some(d + " miles")) == Some(DigitsValue(d))
  {
    DigitsMilesPlain(d);
    DigitsMilesMatch(d);
  }

  /** The adapter's own spelling survives parsing: "<n> miles" gives back
      `n` for every figure of at most six digits. */
  lemma MilesRoundTrip(n: nat)
    requires n <= 999999
    ensures ParseMiles(Some(DecimalText(n) + " miles")) == Some(n)
  {
    assert Pow10(3) == 1000;
    DecimalLength(n, MaxMileDigits);
    DigitsMiles(DecimalText(n));
    DecimalRoundTrip(n);
  }

  /** A seven-digit figure is not read whole: the leftmost match starts at
      its second digit, so the leading digit is dropped. */
  lemma SevenDigitMiles(c: char, d: string)
    requires IsDigit(c) && AllDigits(d) && |d| == MaxMileDigits
    ensures ParseMiles(Some([c] + d + " miles")) == Some(DigitsValue(d))
  {
    assert AllDigits([c] + d) by {
      assert forall k :: 1 <= k < |d| + 1 ==> ([c] + d)[k] == d[k - 1];
    }
    DigitsMilesPlain([c] + d);
    SevenDigitSearch(c, d);
  }

  /** The search over a seven-digit figure: no match at the first digit,
      whose run is too long, and a match at the second. */
  lemma SevenDigitSearch(c: char, d: string)
    requires IsDigit(c) && AllDigits(d) && |d| == MaxMileDigits
    ensures MilesIn([c] + d + " miles") == Some(DigitsValue(d))
  {
    var t := [c] + d + " miles";
    assert t[1..7] == d && t[7..] == " miles" by {
      assert t == [c] + (d + " miles");
    }
    assert forall k :: 0 <= k < 7 ==> IsDigit(t[k]) by {
      forall k | 0 <= k < 7 ensures IsDigit(t[k]) {
        if k > 0 {
          assert t[k] == t[1..7][k - 1];
        }
      }
    }
    assert t[7] == ' ' && MileAt(t, 8) by {
      assert t[7..][0] == ' ' && t[7..][1..5] == "mile";
    }
    SecondDigitMatch(t);
  }

  /** Seven digits, a space and "mile": the leftmost match is at index 1. */
  lemma SecondDigitMatch(t: string)
    requires |t| >= 12 && forall k :: 0 <= k < 7 ==> IsDigit(t[k])
    requires t[7] == ' ' && MileAt(t, 8)
    ensures MilesIn(t) == Some(DigitsValue(t[1..7]))
  {
    assert !MilesMatchAt(t, 0) by {
      DigitRunFrom(t, 0, 7);
    }
    RunMatches(t, 1, 7);
    assert MilesMatchFrom(t, 0) == 1;
  }

  lemma {:induction false} DigitRunFrom(t: string, i: nat, e: nat)
    requires i <= e < |t| && !IsDigit(t[e])
    requires forall k :: i <= k < e ==> IsDigit(t[k])
    ensures DigitRun(t, i) == e - i
    decreases e - i
  {
    if i < e {
      DigitRunFrom(t, i + 1, e);
    }
  }

  /** What the amount pattern `[0-9]+(?:\.[0-9]{1,2})?` captures: a digit
      run and, when a point and a digit follow it, one or two fraction
      digits. */
  datatype Amount = Amount(whole: string, fraction: string)

  /** The captured text itself. */
  function AmountText(a: Amount): string {
    a.whole + (if a.fraction == [] then [] else "." + a.fraction)
  }

  /** The amount captured from a match starting at digit `i`: the whole
      digit run, then the point and up to two digits when a digit follows
      the point. */
  function AmountAt(s: string, i: nat): (a: Amount)
    requires i < |s| && IsDigit(s[i])
    ensures 1 <= |a.whole| && AllDigits(a.whole) && AllDigits(a.fraction) && |a.fraction| <= 2
    ensures OccursAt(s, AmountText(a), i)
    ensures i + |a.whole| == |s| || !IsDigit(s[i + |a.whole|])
    ensures a.fraction == [] ==> !(i + |a.whole| + 1 < |s| && s[i + |a.whole|] == '.' && IsDigit(s[i + |a.whole| + 1]))
    ensures |a.fraction| == 1 ==> i + |a.whole| + 2 == |s| || !IsDigit(s[i + |a.whole| + 2])
  {
    var e := i + DigitRun(s, i);
    if e + 1 < |s| && s[e] == '.' && IsDigit(s[e + 1]) then
      var f := if DigitRun(s, e + 1) < 2 then DigitRun(s, e + 1) else 2;
      assert s[i..e + 1 + f] == s[i..e] + "." + s[e + 1..e + 1 + f];
      Amount(s[i..e], s[e + 1..e + 1 + f])
    else
      Amount(s[i..e], [])
  }

  /** The leftmost match of the amount pattern starts at the first digit;
      there is none without a digit. */
  function MatchAmount(s: string): (m: Option<Amount>)
    ensures m.None? <==> forall k :: 0 <= k < |s| ==> !IsDigit(s[k])
    ensures m.Some? ==> 0 <= FirstWhere(s, IsDigit) && m.value == AmountAt(s, FirstWhere(s, IsDigit))
  {
    var i := FirstWhere(s, IsDigit);
    if i == -1 then None else Some(AmountAt(s, i))
  }

  /** The fraction digits as cents: "5" is 50 cents, "05" is 5. */
  function FractionCents(f: string): (c: nat)
    requires AllDigits(f) && |f| <= 2
    ensures c < 100
  {
    if |f| == 0 then 0
    else if |f| == 1 then 10 * DigitValue(f[0])
    else 10 * DigitValue(f[0]) + DigitValue(f[1])
  }

  /** `_parse_money` in whole cents: no text, or text without a digit once
      the thousands separators are removed, is worth nothing; otherwise the
      leftmost amount, which carries no sign, gives the value. */
  function ParseMoneyCents(text: string): (cents: nat)
    ensures (forall k :: 0 <= k < |text| ==> !IsDigit(text[k])) ==> cents == 0
    ensures var m := MatchAmount(Without(text, ','));
      m.Some? ==> cents / 100 == DigitsValue(m.value.whole) && cents % 100 == FractionCents(m.value.fraction)
  {
    if text == [] then 0
    else
      var cleaned := Without(text, ',');
      NoDigitsWithout(text);
      match MatchAmount(cleaned)
      case None => 0
      case Some(a) => DigitsValue(a.whole) * 100 + FractionCents(a.fraction)
  }

  /** Removing commas adds no digit. */
  lemma NoDigitsWithout(text: string)
    ensures (forall k :: 0 <= k < |text| ==> !IsDigit(text[k])) ==>
      forall k :: 0 <= k < |Without(text, ',')| ==> !IsDigit(Without(text, ',')[k])
  {
    var r := Without(text, ',');
    forall k | 0 <= k < |r|
      ensures r[k] in text
    {
      assert r[k] in multiset(r);
      assert r[k] in multiset(text);
    }
  }

  /** Text without the character is left alone by its removal. */
  lemma {:induction false} WithoutAbsent(s: string, c: char)
    requires c !in s
    ensures Without(s, c) == s
  {
    if s != [] {
      assert s[1..] == s[1..];
      assert c !in s[1..] by {
        assert forall x :: x in s[1..] ==> x in s;
      }
      WithoutAbsent(s[1..], c);
    }
  }

  /** Thousands separators are ignored: a text parses as it does with its
      commas removed. */
  lemma CommasIgnored(text: string)
    ensures ParseMoneyCents(text) == ParseMoneyCents(Without(text, ','))
  {
    WithoutAbsent(Without(text, ','), ',');
  }

  function DigitChar(d: nat): (c: char)
    requires d < 10
    ensures IsDigit(c) && DigitValue(c) == d
  {
    ('0' as int + d) as char
  }

  /** The two-digit spelling of a cent count. */
  function CentsText(c: nat): (r: string)
    requires c < 100
    ensures |r| == 2 && AllDigits(r) && FractionCents(r) == c
  {
    [DigitChar(c / 10), DigitChar(c % 10)]
  }

  /** In "$<digits>.<two digits>" the amount starts after the dollar sign
      and takes the digits and both fraction digits. */
  lemma PriceAmount(d: string, cents: string)
    requires AllDigits(d) && 1 <= |d| && AllDigits(cents) && |cents| == 2
    ensures MatchAmount("$" + d + "." + cents) == Some(Amount(d, cents))
  {
    var t := "$" + d + "." + cents;
    var e := |d| + 1;
    assert !IsDigit(t[0]) && IsDigit(t[1]);
    assert FirstWhere(t, IsDigit) == 1;
    DigitRunFrom(t, 1, e);
    assert t[e + 1..] == cents;
    assert DigitRun(t, e + 1) == 2 by {
      assert IsDigit(t[e + 1]) && IsDigit(t[e + 2]) && e + 3 == |t|;
    }
    assert t[1..e] == d && t[e] == '.' && t[e + 1..e + 3] == cents;
    assert AmountAt(t, 1) == Amount(d, cents);
  }

  /** A price as the site spells it, "$<w>.<cc>", parses to its exact cent
      value. */
  lemma MoneyRoundTrip(w: nat, c: nat)
    requires c < 100
    ensures ParseMoneyCents("$" + DecimalText(w) + "." + CentsText(c)) == 100 * w + c
  {
    var t := "$" + DecimalText(w) + "." + CentsText(c);
    assert ',' !in t by {
      assert forall k :: 0 <= k < |t| ==> t[k] != ',';
    }
    WithoutAbsent(t, ',');
    PriceAmount(DecimalText(w), CentsText(c));
    DecimalRoundTrip(w);
    assert MatchAmount(Without(t, ',')) == Some(Amount(DecimalText(w), CentsText(c)));
    assert ParseMoneyCents(t) == DigitsValue(DecimalText(w)) * 100 + FractionCents(CentsText(c));
  }
}
