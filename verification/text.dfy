/** String handling used by the tag normalisation and the generated sentences:
    JavaScript's `toLowerCase`, `trim`, decimal rendering of counts and `join`. */
module Text {

  /** The characters `String.prototype.trim` strips: WhiteSpace and LineTerminator
      of section 12.2 and 12.3 of ECMA-262. */
  predicate IsSpace(c: char) {
    || c == '\t' || c == '\n' || c == '\U{000B}' || c == '\U{000C}' || c == '\r' || c == ' '
    || c == '\U{00A0}' || c == '\U{1680}' || ('\U{2000}' <= c <= '\U{200A}')
    || c == '\U{2028}' || c == '\U{2029}' || c == '\U{202F}' || c == '\U{205F}'
    || c == '\U{3000}' || c == '\U{FEFF}'
  }

  predicate IsUpper(c: char) {
    'A' <= c <= 'Z'
  }

  function LowerChar(c: char): (r: char)
    ensures !IsUpper(r)
    ensures IsSpace(r) <==> IsSpace(c)
    ensures !IsUpper(c) ==> r == c
  {
    if IsUpper(c) then (c as int + 32) as char else c
  }

  /** `toLowerCase`, on the ASCII letters */
  function ToLower(s: string): (r: string)
    ensures |r| == |s|
    ensures forall i :: 0 <= i < |s| ==> r[i] == LowerChar(s[i])
  {
    seq(|s|, i requires 0 <= i < |s| => LowerChar(s[i]))
  }

  /** The first position at or after `i` that is not whitespace (`|s|` if none) */
  function SkipSpaces(s: string, i: nat): (r: nat)
    requires i <= |s|
    ensures i <= r <= |s|
    ensures forall k :: i <= k < r ==> IsSpace(s[k])
    ensures r == |s| || !IsSpace(s[r])
    decreases |s| - i
  {
    if i < |s| && IsSpace(s[i]) then SkipSpaces(s, i + 1) else i
  }

  /** The end of `s[lo..j]` with its trailing whitespace cut off */
  function BackSpaces(s: string, lo: nat, j: nat): (r: nat)
    requires lo <= j <= |s|
    ensures lo <= r <= j
    ensures forall k :: r <= k < j ==> IsSpace(s[k])
    ensures r == lo || !IsSpace(s[r - 1])
    decreases j
  {
    if lo < j && IsSpace(s[j - 1]) then BackSpaces(s, lo, j - 1) else j
  }

  /** `String.prototype.trim`: the slice of `s` between its leading and its
      trailing whitespace */
  function Trim(s: string): (r: string)
    ensures |r| <= |s|
    ensures |r| == 0 || (!IsSpace(r[0]) && !IsSpace(r[|r| - 1]))
  {
    var a := SkipSpaces(s, 0);
    s[a..BackSpaces(s, a, |s|)]
  }

  /** The tag normalisation `tag.toLowerCase().trim()` used for grouping,
      histograms and related-note lookup: the lower-cased tag with only
      whitespace cut from either end, and none left at either end. */
  function Normalize(tag: string): (r: string)
    ensures |r| <= |tag|
    ensures forall i :: 0 <= i < |r| ==> !IsUpper(r[i])
    ensures |r| == 0 || (!IsSpace(r[0]) && !IsSpace(r[|r| - 1]))
    ensures TrimmedLower(r, tag)
  {
    var low := ToLower(tag);
    var a := SkipSpaces(low, 0);
    var b := BackSpaces(low, a, |low|);
    LowerSpaces(tag, a, b);
    SliceLower(tag, a, b);
    SliceEnds(low, a, b);
    TrimmedAt(low[a..b], tag, a, b);
    low[a..b]
  }

  lemma SliceLower(tag: string, a: nat, b: nat)
    requires a <= b <= |tag|
    ensures var r := ToLower(tag)[a..b]; forall i :: 0 <= i < |r| ==> !IsUpper(r[i])
  {
    var r := ToLower(tag)[a..b];
    forall i | 0 <= i < |r|
      ensures !IsUpper(r[i])
    {
      assert r[i] == LowerChar(tag[a + i]);
    }
  }

  /** The trim bounds leave no whitespace at either end */
  lemma SliceEnds(s: string, a: nat, b: nat)
    requires a == SkipSpaces(s, 0) && b == BackSpaces(s, a, |s|)
    ensures var r := s[a..b]; |r| == 0 || (!IsSpace(r[0]) && !IsSpace(r[|r| - 1]))
  {
    if a < b {
      assert s[a..b][0] == s[a];
      assert s[a..b][b - a - 1] == s[b - 1];
    }
  }

  /** `r` is the lower-cased `tag` with some whitespace, and nothing else,
      cut from either end */
  ghost predicate TrimmedLower(r: string, tag: string) {
    exists a, b ::
      && 0 <= a <= b <= |tag| && r == ToLower(tag)[a..b]
      && (forall k :: 0 <= k < a ==> IsSpace(tag[k]))
      && (forall k :: b <= k < |tag| ==> IsSpace(tag[k]))
  }

  lemma TrimmedAt(r: string, tag: string, a: nat, b: nat)
    requires a <= b <= |tag| && r == ToLower(tag)[a..b]
    requires forall k :: 0 <= k < a ==> IsSpace(tag[k])
    requires forall k :: b <= k < |tag| ==> IsSpace(tag[k])
    ensures TrimmedLower(r, tag)
  {
  }

  /** Whitespace cut from the lower-cased tag was whitespace in the tag */
  lemma LowerSpaces(tag: string, a: nat, b: nat)
    requires a <= b <= |tag|
    requires forall k :: 0 <= k < a ==> IsSpace(ToLower(tag)[k])
    requires forall k :: b <= k < |tag| ==> IsSpace(ToLower(tag)[k])
    ensures forall k :: 0 <= k < a ==> IsSpace(tag[k])
    ensures forall k :: b <= k < |tag| ==> IsSpace(tag[k])
  {
    forall k | 0 <= k < |tag|
      ensures IsSpace(ToLower(tag)[k]) ==> IsSpace(tag[k])
    {
      assert ToLower(tag)[k] == LowerChar(tag[k]);
    }
  }

  /** A string with no whitespace at either end trims to itself */
  lemma TrimNoop(s: string)
    requires |s| == 0 || (!IsSpace(s[0]) && !IsSpace(s[|s| - 1]))
    ensures Trim(s) == s
  {
    assert SkipSpaces(s, 0) == 0;
    assert BackSpaces(s, 0, |s|) == |s|;
  }

  lemma ToLowerNoop(s: string)
    requires forall i :: 0 <= i < |s| ==> !IsUpper(s[i])
    ensures ToLower(s) == s
  {
  }

  /** A tag without upper-case letters and without whitespace at either end
      is its own normal form */
  lemma NormalizeFixes(tag: string)
    requires forall i :: 0 <= i < |tag| ==> !IsUpper(tag[i])
    requires |tag| == 0 || (!IsSpace(tag[0]) && !IsSpace(tag[|tag| - 1]))
    ensures Normalize(tag) == tag
  {
    ToLowerNoop(tag);
    TrimNoop(tag);
  }

  /** Normalising twice is normalising once */
  lemma {:induction false} NormalizeIdempotent(tag: string)
    ensures Normalize(Normalize(tag)) == Normalize(tag)
  {
    var r := Normalize(tag);
    ToLowerNoop(r);
    TrimNoop(r);
  }

  /** Tags differing only in ASCII letter case normalise alike */
  lemma {:induction false} NormalizeIgnoresCase(tag: string)
    ensures Normalize(ToLower(tag)) == Normalize(tag)
  {
    assert ToLower(ToLower(tag)) == ToLower(tag);
  }

  /** Skipping over a string with a character in front */
  lemma {:induction false} SkipShift(s: string, c: char, i: nat)
    requires i <= |s|
    ensures SkipSpaces([c] + s, i + 1) == SkipSpaces(s, i) + 1
    decreases |s| - i
  {
    if i < |s| {
      assert ([c] + s)[i + 1] == s[i];
      if IsSpace(s[i]) {
        SkipShift(s, c, i + 1);
      }
    }
  }

  lemma {:induction false} BackShift(s: string, c: char, lo: nat, j: nat)
    requires lo <= j <= |s|
    ensures BackSpaces([c] + s, lo + 1, j + 1) == BackSpaces(s, lo, j) + 1
    decreases j
  {
    if lo < j {
      assert ([c] + s)[j] == s[j - 1];
      if IsSpace(s[j - 1]) {
        BackShift(s, c, lo, j - 1);
      }
    }
  }

  /** Appending a character does not change positions inside the string */
  lemma {:induction false} SkipSnoc(s: string, c: char, i: nat)
    requires i <= |s| && IsSpace(c)
    ensures SkipSpaces(s + [c], i) == if SkipSpaces(s, i) == |s| then |s| + 1 else SkipSpaces(s, i)
    decreases |s| - i
  {
    if i < |s| {
      assert (s + [c])[i] == s[i];
      if IsSpace(s[i]) {
        SkipSnoc(s, c, i + 1);
      }
    } else {
      assert (s + [c])[i] == c;
      assert SkipSpaces(s + [c], i) == SkipSpaces(s + [c], i + 1);
    }
  }

  lemma {:induction false} BackSnoc(s: string, c: char, lo: nat, j: nat)
    requires lo <= j <= |s|
    ensures BackSpaces(s + [c], lo, j) == BackSpaces(s, lo, j)
    decreases j
  {
    if lo < j {
      assert (s + [c])[j - 1] == s[j - 1];
      if IsSpace(s[j - 1]) {
        BackSnoc(s, c, lo, j - 1);
      }
    }
  }

  /** Trim is the slice between the two scans */
  lemma TrimBounds(s: string, a: nat, b: nat)
    requires a == SkipSpaces(s, 0) && b == BackSpaces(s, a, |s|)
    ensures Trim(s) == s[a..b]
  {
  }

  lemma DropFront<T>(c: T, s: seq<T>, a: nat, b: nat)
    requires a <= b <= |s|
    ensures ([c] + s)[a + 1..b + 1] == s[a..b]
  {
    assert forall k :: a <= k < b ==> ([c] + s)[k + 1] == s[k];
  }

  lemma KeepFront<T>(s: seq<T>, u: seq<T>, a: nat, b: nat)
    requires a <= b <= |s|
    ensures (s + u)[a..b] == s[a..b]
  {
    assert forall k :: a <= k < b ==> (s + u)[k] == s[k];
  }

  lemma TrimIgnoresFront(s: string, c: char)
    requires IsSpace(c)
    ensures Trim([c] + s) == Trim(s)
  {
    var f := [c] + s;
    var a := SkipSpaces(s, 0);
    var b := BackSpaces(s, a, |s|);
    SkipShift(s, c, 0);
    assert SkipSpaces(f, 0) == a + 1 by {
      assert f[0] == c;
    }
    BackShift(s, c, a, |s|);
    TrimBounds(f, a + 1, b + 1);
    TrimBounds(s, a, b);
    DropFront(c, s, a, b);
  }

  lemma TrimIgnoresBack(s: string, c: char)
    requires IsSpace(c)
    ensures Trim(s + [c]) == Trim(s)
  {
    var a := SkipSpaces(s, 0);
    var b := BackSpaces(s, a, |s|);
    var t := s + [c];
    SkipSnoc(s, c, 0);
    TrimBounds(s, a, b);
    if a < |s| {
      assert BackSpaces(t, a, |s| + 1) == BackSpaces(t, a, |s|) by {
        assert t[|s|] == c;
      }
      BackSnoc(s, c, a, |s|);
      TrimBounds(t, a, b);
      KeepFront(s, [c], a, b);
    } else {
      TrimBounds(t, |s| + 1, |s| + 1);
    }
  }


  /** Surrounding whitespace does not change a tag's normal form: `" ai "`,
      `"ai"` and `"AI"` form one theme. */
  lemma {:induction false} NormalizeIgnoresPadding(tag: string, c: char)
    requires IsSpace(c)
    ensures Normalize([c] + tag) == Normalize(tag)
    ensures Normalize(tag + [c]) == Normalize(tag)
  {
    var low := ToLower(tag);
    assert ToLower([c] + tag) == [c] + low;
    assert ToLower(tag + [c]) == low + [c];
    TrimIgnoresFront(low, c);
    TrimIgnoresBack(low, c);
  }

  /** The decimal digit character for `d` */
  function DigitChar(d: nat): (c: char)
    requires d < 10
    ensures '0' <= c <= '9'
  {
    ('0' as int + d) as char
  }

  function DigitValue(c: char): nat
    requires '0' <= c <= '9'
  {
    c as int - '0' as int
  }

  /** Decimal rendering of a count (`${n}` in a template literal) */
  function NatToString(n: nat): (r: string)
    ensures |r| >= 1
    ensures forall i :: 0 <= i < |r| ==> '0' <= r[i] <= '9'
    ensures |r| == 1 || r[0] != '0'
  {
    if n < 10 then [DigitChar(n)] else NatToString(n / 10) + [DigitChar(n % 10)]
  }

  /** Reads a decimal numeral back */
  function ParseNat(s: string): nat
    requires forall i :: 0 <= i < |s| ==> '0' <= s[i] <= '9'
  {
    if |s| == 0 then 0 else ParseNat(s[..|s| - 1]) * 10 + DigitValue(s[|s| - 1])
  }

  /** The rendering of a count reads back as that count, so distinct counts
      give distinct strings. */
  lemma {:induction false} ParseNatToString(n: nat)
    ensures ParseNat(NatToString(n)) == n
  {
    if n >= 10 {
      var s := NatToString(n);
      assert s[..|s| - 1] == NatToString(n / 10);
      ParseNatToString(n / 10);
    }
  }

  /** `parts.join(sep)` */
  function Join(parts: seq<string>, sep: string): string
  {
    if |parts| == 0 then ""
    else if |parts| == 1 then parts[0]
    else Join(parts[..|parts| - 1], sep) + sep + parts[|parts| - 1]
  }
}
