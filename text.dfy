/** The handful of Python string operations the core relies on, on ASCII
    text: `lower()`, the substring test `in`, `replace(c, "")`, `strip()`,
    the `findall` of an attribute value between a fixed opener and a closing
    character, and decimal digit runs. */
module Text {

  predicate IsDigit(c: char) { '0' <= c <= '9' }

  /** Python's `\s` restricted to ASCII. */
  predicate IsSpace(c: char) {
    c == ' ' || c == '\t' || c == '\n' || c == '\r' || c == '\U{0B}' || c == '\U{0C}'
  }

  function LowerChar(c: char): char {
    if 'A' <= c <= 'Z' then (c as int + 32) as char else c
  }

  /** `str.lower()` on ASCII letters; every other character is kept. */
  function Lower(s: string): (r: string)
    ensures |r| == |s|
    ensures forall i :: 0 <= i < |s| ==> r[i] == LowerChar(s[i])
  {
    seq(|s|, i requires 0 <= i < |s| => LowerChar(s[i]))
  }

  /** `sub` occurs in `s` starting at index `i`. */
  predicate OccursAt(s: string, sub: string, i: int) {
    0 <= i && i + |sub| <= |s| && s[i..i + |sub|] == sub
  }

  /** Python's `sub in s`. */
  predicate Contains(s: string, sub: string) {
    exists i :: 0 <= i <= |s| - |sub| && OccursAt(s, sub, i)
  }

  lemma ContainsWithin(s: string, sub: string, k: nat)
    requires k <= |s| && Contains(s[k..], sub)
    ensures Contains(s, sub)
  {
    var i :| 0 <= i <= |s[k..]| - |sub| && OccursAt(s[k..], sub, i);
    assert s[k + i..k + i + |sub|] == s[k..][i..i + |sub|];
    assert OccursAt(s, sub, k + i);
  }

  /** Python's `s.replace(c, "")`. */
  function Without(s: string, c: char): (r: string)
    ensures c !in r
    ensures multiset(r) == multiset(s)[c := 0]
  {
    if s == [] then []
    else
      assert s == [s[0]] + s[1..];
      if s[0] == c then Without(s[1..], c) else [s[0]] + Without(s[1..], c)
  }

  /** Removal works piecewise, so the characters kept stay in their order. */
  lemma {:induction false} WithoutAppend(a: string, b: string, c: char)
    ensures Without(a + b, c) == Without(a, c) + Without(b, c)
    decreases |a|
  {
    if a == [] {
      assert a + b == b;
    } else {
      assert (a + b)[0] == a[0] && (a + b)[1..] == a[1..] + b;
      WithoutAppend(a[1..], b, c);
    }
  }

  /** A single character is dropped exactly when it is the one removed. */
  lemma WithoutOne(x: char, c: char)
    ensures Without([x], c) == if x == c then [] else [x]
  {
    assert [x][1..] == [];
  }

  /** Position after the run of whitespace starting at `i`. */
  function SkipSpaces(s: string, i: nat): (j: nat)
    requires i <= |s|
    ensures i <= j <= |s|
    ensures forall k :: i <= k < j ==> IsSpace(s[k])
    ensures j == |s| || !IsSpace(s[j])
    decreases |s| - i
  {
    if i < |s| && IsSpace(s[i]) then SkipSpaces(s, i + 1) else i
  }

  /** Position where the run of whitespace ending at `j` starts, not going
      below `a`. */
  function SkipSpacesBack(s: string, a: nat, j: nat): (b: nat)
    requires a <= j <= |s|
    ensures a <= b <= j
    ensures forall k :: b <= k < j ==> IsSpace(s[k])
    ensures b == a || !IsSpace(s[b - 1])
    decreases j
  {
    if a < j && IsSpace(s[j - 1]) then SkipSpacesBack(s, a, j - 1) else j
  }

  /** `str.strip()`: a contiguous slice of `s` with no whitespace at either
      end, everything cut off being whitespace. */
  function Strip(s: string): (r: string)
    ensures exists a, b ::
      (0 <= a <= b <= |s| && r == s[a..b]
       && (forall i :: 0 <= i < a ==> IsSpace(s[i]))
       && (forall i :: b <= i < |s| ==> IsSpace(s[i])))
    ensures r == [] || (!IsSpace(r[0]) && !IsSpace(r[|r| - 1]))
  {
    var a := SkipSpaces(s, 0);
    var b := SkipSpacesBack(s, a, |s|);
    s[a..b]
  }

  /** Index of the first `c` in `s`, or -1. */
  function IndexOf(s: string, c: char): (r: int)
    ensures -1 <= r < |s|
    ensures r == -1 <==> c !in s
    ensures 0 <= r ==> s[r] == c && c !in s[..r]
  {
    if s == [] then -1
    else if s[0] == c then 0
    else
      var j := IndexOf(s[1..], c);
      assert s == [s[0]] + s[1..];
      if j == -1 then -1 else (assert s[..j + 1] == [s[0]] + s[1..][..j]; j + 1)
  }

  /** Python's `re.findall(open + '([^' + close + ']*)' + close, s)` for a
      literal opener: scanning left to right, each occurrence of `open`
      followed, somewhere later, by `close` yields the text in between, and
      scanning resumes after that `close`. */
  function Scan(s: string, open: string, close: char): seq<string>
    requires |open| > 0
    decreases |s|
  {
    if |s| < |open| then []
    else if s[..|open|] == open then
      var rest := s[|open|..];
      var j := IndexOf(rest, close);
      if j < 0 then Scan(s[1..], open, close)
      else [rest[..j]] + Scan(rest[j + 1..], open, close)
    else Scan(s[1..], open, close)
  }

  /** Without the opener there is nothing to find. */
  lemma {:induction false} ScanNoOpener(s: string, open: string, close: char)
    requires |open| > 0 && !Contains(s, open)
    ensures Scan(s, open, close) == []
    decreases |s|
  {
    if |s| >= |open| {
      assert s[..|open|] != open by {
        assert !OccursAt(s, open, 0);
        assert s[..|open|] == s[0..|open|];
      }
      NotContainedAfter(s, open, 1);
      ScanNoOpener(s[1..], open, close);
    }
  }

  /** A text that lacks `sub` lacks it in every suffix. */
  lemma NotContainedAfter(s: string, sub: string, k: nat)
    requires k <= |s|
    ensures !Contains(s, sub) ==> !Contains(s[k..], sub)
  {
    if Contains(s[k..], sub) {
      ContainsWithin(s, sub, k);
    }
  }

  /** Where the opener is not at the start, the scan moves on by one. */
  lemma ScanSkip(s: string, open: string, close: char)
    requires |open| > 0 && |s| > 0 && !OccursAt(s, open, 0)
    ensures Scan(s, open, close) == Scan(s[1..], open, close)
  {
    if |s| >= |open| {
      assert s[..|open|] == s[0..|open|];
    }
  }

  /** The first `c` stands at `n` when `s[n]` is `c` and none comes before. */
  lemma {:induction false} IndexOfAt(s: string, c: char, n: nat)
    requires n < |s| && s[n] == c
    requires forall k :: 0 <= k < n ==> s[k] != c
    ensures IndexOf(s, c) == n
    decreases n
  {
    if n > 0 {
      forall k | 0 <= k < n - 1 ensures s[1..][k] != c {
        assert s[1..][k] == s[k + 1];
      }
      IndexOfAt(s[1..], c, n - 1);
    }
  }

  /** Where the opener, a value without the closing character and the
      closing character stand at the start, the scan yields that value and
      resumes after the closing character. */
  lemma ScanAtMatch(s: string, open: string, close: char, v: string)
    requires |open| > 0 && close !in v
    requires OccursAt(s, open + v + [close], 0)
    ensures Scan(s, open, close) == [v] + Scan(s[|open| + |v| + 1..], open, close)
  {
    var w := open + v + [close];
    var rest := s[|open|..];
    assert s[..|open|] == open by {
      assert s[..|open|] == s[0..|w|][..|open|] && w[..|open|] == open;
    }
    assert rest[..|v|] == v && rest[|v|] == close by {
      assert rest[..|v| + 1] == s[|open|..|w|] == w[|open|..] == v + [close];
      assert rest[..|v|] == rest[..|v| + 1][..|v|];
    }
    assert forall k :: 0 <= k < |v| ==> rest[k] != close by {
      forall k | 0 <= k < |v| ensures rest[k] != close {
        assert rest[k] == v[k] && v[k] in v;
      }
    }
    IndexOfAt(rest, close, |v|);
    assert rest[|v| + 1..] == s[|open| + |v| + 1..];
  }

  /** An occurrence past the first character is an occurrence in the rest. */
  lemma OccursShift(s: string, sub: string, k: nat)
    requires 1 <= k && 1 <= |s|
    ensures OccursAt(s[1..], sub, k - 1) <==> OccursAt(s, sub, k)
  {
    if k + |sub| <= |s| {
      assert s[1..][k - 1..k - 1 + |sub|] == s[k..k + |sub|];
    }
  }

  /** The scan finds the first opener: when the opener first occurs at `i`,
      followed by `v` without the closing character and then the closing
      character, the scan yields `v` first and resumes right after that
      closing character. */
  lemma ScanFirstMatch(s: string, open: string, close: char, i: nat, v: string)
    requires |open| > 0 && close !in v
    requires OccursAt(s, open + v + [close], i)
    requires forall k :: 0 <= k < i ==> !OccursAt(s, open, k)
    ensures Scan(s, open, close) == [v] + Scan(s[i + |open| + |v| + 1..], open, close)
  {
    ScanSkipTo(s, open, close, i);
    ScanMatchAt(s, open, close, i, v);
  }

  /** A match starting at `i` is the first value of the scan from `i`. */
  lemma ScanMatchAt(s: string, open: string, close: char, i: nat, v: string)
    requires |open| > 0 && close !in v
    requires OccursAt(s, open + v + [close], i)
    ensures Scan(s[i..], open, close) == [v] + Scan(s[i + |open| + |v| + 1..], open, close)
  {
    var w := open + v + [close];
    assert OccursAt(s[i..], w, 0) by {
      assert s[i..][0..|w|] == s[i..i + |w|];
    }
    ScanAtMatch(s[i..], open, close, v);
    assert s[i..][|open| + |v| + 1..] == s[i + |open| + |v| + 1..];
  }

  /** Positions where the opener does not occur are passed over. */
  lemma {:induction false} ScanSkipTo(s: string, open: string, close: char, i: nat)
    requires |open| > 0 && i <= |s|
    requires forall k :: 0 <= k < i ==> !OccursAt(s, open, k)
    ensures Scan(s, open, close) == Scan(s[i..], open, close)
    decreases i
  {
    if i == 0 {
      assert s[i..] == s;
    } else {
      assert forall k :: 0 <= k < i - 1 ==> !OccursAt(s[1..], open, k) by {
        forall k | 0 <= k < i - 1
          ensures !OccursAt(s[1..], open, k)
        {
          OccursShift(s, open, k + 1);
        }
      }
      ScanSkipTo(s[1..], open, close, i - 1);
      assert !OccursAt(s, open, 0);
      ScanSkip(s, open, close);
      ScanSkipStep(s, open, close, i);
    }
  }

  lemma ScanSkipStep(s: string, open: string, close: char, i: nat)
    requires |open| > 0 && 1 <= i <= |s|
    requires Scan(s, open, close) == Scan(s[1..], open, close)
    requires Scan(s[1..], open, close) == Scan(s[1..][i - 1..], open, close)
    ensures Scan(s, open, close) == Scan(s[i..], open, close)
  {
    assert s[1..][i - 1..] == s[i..];
  }

  /** Every value `Scan` yields is free of the closing character and stands
      in `s` between the opener and the closing character. */
  lemma {:induction false} ScanSound(s: string, open: string, close: char)
    requires |open| > 0
    ensures forall v :: v in Scan(s, open, close) ==> close !in v && Contains(s, open + v + [close])
    decreases |s|
  {
    if |s| < |open| {
    } else if s[..|open|] == open {
      var rest := s[|open|..];
      var j := IndexOf(rest, close);
      if j < 0 {
        ScanSound(s[1..], open, close);
        forall v | v in Scan(s[1..], open, close) ensures Contains(s, open + v + [close]) {
          ContainsWithin(s, open + v + [close], 1);
        }
      } else {
        var v0 := rest[..j];
        assert s[0..|open| + j + 1] == open + v0 + [close];
        assert OccursAt(s, open + v0 + [close], 0);
        var k := |open| + j + 1;
        assert rest[j + 1..] == s[k..];
        ScanSound(s[k..], open, close);
        forall v | v in Scan(s[k..], open, close) ensures Contains(s, open + v + [close]) {
          ContainsWithin(s, open + v + [close], k);
        }
      }
    } else {
      ScanSound(s[1..], open, close);
      forall v | v in Scan(s[1..], open, close) ensures Contains(s, open + v + [close]) {
        ContainsWithin(s, open + v + [close], 1);
      }
    }
  }

  lemma MulSucc(n: nat, w: nat)
    ensures (n + 1) * w == n * w + w
  {
  }

  /** Each value `Scan` yields consumes the opener, the value and the closing
      character, so there are at most |s| / (|open| + 1) of them. */
  lemma {:induction false} ScanCountBound(s: string, open: string, close: char)
    requires |open| > 0
    ensures |Scan(s, open, close)| * (|open| + 1) <= |s|
    decreases |s|
  {
    var w := |open| + 1;
    if |s| < |open| {
    } else if s[..|open|] == open {
      var rest := s[|open|..];
      var j := IndexOf(rest, close);
      if j < 0 {
        ScanCountBound(s[1..], open, close);
      } else {
        var tail := rest[j + 1..];
        ScanCountBound(tail, open, close);
        assert Scan(s, open, close) == [rest[..j]] + Scan(tail, open, close);
        MulSucc(|Scan(tail, open, close)|, w);
        assert |tail| + w <= |s|;
      }
    } else {
      ScanCountBound(s[1..], open, close);
    }
  }

  predicate AllDigits(s: string) { forall i :: 0 <= i < |s| ==> IsDigit(s[i]) }

  function DigitValue(c: char): nat
    requires IsDigit(c)
  {
    c as int - '0' as int
  }

  /** Python's `int(ds)` for a run of ASCII digits. */
  function DigitsValue(ds: string): nat
    requires AllDigits(ds)
  {
    if ds == [] then 0 else DigitsValue(ds[..|ds| - 1]) * 10 + DigitValue(ds[|ds| - 1])
  }

  function Pow10(k: nat): nat { if k == 0 then 1 else 10 * Pow10(k - 1) }

  /** A run of k digits denotes a number below 10^k. */
  lemma {:induction false} DigitsValueBound(ds: string)
    requires AllDigits(ds)
    ensures DigitsValue(ds) < Pow10(|ds|)
  {
    if ds != [] {
      DigitsValueBound(ds[..|ds| - 1]);
    }
  }

  /** Shortest decimal spelling of `n`, as Python's `str(n)`. */
  function DecimalText(n: nat): (r: string)
    ensures |r| >= 1 && AllDigits(r)
  {
    if n < 10 then [('0' as int + n) as char]
    else DecimalText(n / 10) + [('0' as int + n % 10) as char]
  }

  /** Reading back the decimal spelling gives the number. */
  lemma {:induction false} DecimalRoundTrip(n: nat)
    ensures DigitsValue(DecimalText(n)) == n
  {
    var r := DecimalText(n);
    if n >= 10 {
      DecimalRoundTrip(n / 10);
      assert r[..|r| - 1] == DecimalText(n / 10);
    }
  }

  /** A number below 10^k needs at most k digits (k >= 1: zero is spelled "0"). */
  lemma {:induction false} DecimalLength(n: nat, k: nat)
    requires k >= 1 && n < Pow10(k)
    ensures |DecimalText(n)| <= k
  {
    if n >= 10 {
      assert k >= 2;
      assert n / 10 < Pow10(k - 1);
      DecimalLength(n / 10, k - 1);
    }
  }
}
