/**
 * The parts of Python's `str` that the pipeline relies on: `strip()`, `split(sep)`, `startswith`,
 * the `in` substring test, slicing to a maximum length and the decimal form of an integer.
 * Strings are sequences of Unicode code points, as Python's `len` counts them.
 */
module Strings {

  /** The characters for which Python's `str.isspace()` holds; `strip()` with no argument removes exactly these. */
  predicate IsSpace(c: char) {
    || ('\t' <= c <= '\r')
    || ('\U{1C}' <= c <= '\U{1F}')
    || c == ' '
    || c == '\U{85}'
    || c == '\U{A0}'
    || c == '\U{1680}'
    || ('\U{2000}' <= c <= '\U{200A}')
    || c == '\U{2028}'
    || c == '\U{2029}'
    || c == '\U{202F}'
    || c == '\U{205F}'
    || c == '\U{3000}'
  }

  /** Leading whitespace removed: a suffix of `s` whose dropped part is all whitespace. */
  function StripLeft(s: string): (r: string)
    ensures |r| <= |s| && r == s[|s| - |r|..]
    ensures forall i :: 0 <= i < |s| - |r| ==> IsSpace(s[i])
    ensures r == [] || !IsSpace(r[0])
  {
    if |s| > 0 && IsSpace(s[0]) then StripLeft(s[1..]) else s
  }

  /** Trailing whitespace removed: a prefix of `s` whose dropped part is all whitespace. */
  function StripRight(s: string): (r: string)
    ensures |r| <= |s| && r == s[..|r|]
    ensures forall i :: |r| <= i < |s| ==> IsSpace(s[i])
    ensures r == [] || !IsSpace(r[|r| - 1])
  {
    if |s| > 0 && IsSpace(s[|s| - 1]) then StripRight(s[..|s| - 1]) else s
  }

  /** Python's `s.strip()`: never longer, and neither end of the result is whitespace. */
  function Strip(s: string): (r: string)
    ensures |r| <= |s|
    ensures r == [] || (!IsSpace(r[0]) && !IsSpace(r[|r| - 1]))
  {
    var left := StripLeft(s);
    var r := StripRight(left);
    assert r != [] ==> r[0] == left[0];
    r
  }

  /** `s.strip()` is the slice `s[lo..lo+|r|]` with only whitespace outside it and none at either end of it. */
  lemma {:induction false} StripIsTrimmedSlice(s: string) returns (lo: nat)
    ensures var r := Strip(s);
      && lo + |r| <= |s| && r == s[lo..lo + |r|]
      && (forall i :: 0 <= i < lo ==> IsSpace(s[i]))
      && (forall i :: lo + |r| <= i < |s| ==> IsSpace(s[i]))
      && (r == [] || (!IsSpace(r[0]) && !IsSpace(r[|r| - 1])))
  {
    var left := StripLeft(s);
    lo := |s| - |left|;
    var r := Strip(s);
    assert r == StripRight(left);
    assert forall i :: 0 <= i < lo ==> IsSpace(s[i]);
    SliceOfSuffix(s, left, r);
  }

  /** A prefix `r` of the suffix `left` of `s` is a slice of `s`, and what follows it in `s` follows it in `left`. */
  lemma SliceOfSuffix(s: string, left: string, r: string)
    requires |left| <= |s| && left == s[|s| - |left|..]
    requires |r| <= |left| && r == left[..|r|]
    requires forall i :: |r| <= i < |left| ==> IsSpace(left[i])
    ensures var lo := |s| - |left|;
      r == s[lo..lo + |r|] && forall i :: lo + |r| <= i < |s| ==> IsSpace(s[i])
  {
    var lo := |s| - |left|;
    assert s[lo..][..|r|] == s[lo..lo + |r|];
    forall i | lo + |r| <= i < |s| ensures IsSpace(s[i]) {
      assert s[i] == left[i - lo];
    }
  }

  /** Stripping twice is stripping once. */
  lemma {:induction false} StripIdempotent(s: string)
    ensures Strip(Strip(s)) == Strip(s)
  {
    var r := Strip(s);
    assert StripLeft(r) == r;
    assert StripRight(r) == r;
  }

  /** Python's `s.startswith(prefix)`. */
  predicate StartsWith(s: string, prefix: string) {
    |prefix| <= |s| && s[..|prefix|] == prefix
  }

  /** Python's `s.startswith((p0, p1, ...))`. */
  predicate StartsWithAny(s: string, prefixes: seq<string>) {
    exists i :: 0 <= i < |prefixes| && StartsWith(s, prefixes[i])
  }

  /** No prefix from a list of non-empty prefixes starts the empty string. */
  lemma EmptyStartsWithNone(prefixes: seq<string>)
    requires forall i :: 0 <= i < |prefixes| ==> prefixes[i] != ""
    ensures !StartsWithAny("", prefixes)
  {
  }

  /** Python's `sub in s`, scanning the start positions from the left. */
  predicate Contains(s: string, sub: string)
    decreases |s|
  {
    StartsWith(s, sub) || (|s| > 0 && Contains(s[1..], sub))
  }

  /** `sub` occurs in `s` at position `i`. */
  predicate OccursAt(s: string, sub: string, i: int) {
    0 <= i <= |s| - |sub| && s[i..i + |sub|] == sub
  }

  /** `sub in s` holds exactly when `sub` occurs at some position of `s`. */
  lemma {:induction false} ContainsIffOccurrence(s: string, sub: string)
    ensures Contains(s, sub) <==> exists i :: OccursAt(s, sub, i)
    decreases |s|
  {
    if StartsWith(s, sub) {
      assert OccursAt(s, sub, 0);
    }
    if |s| > 0 {
      ContainsIffOccurrence(s[1..], sub);
      if Contains(s[1..], sub) {
        var i :| OccursAt(s[1..], sub, i);
        assert s[1..][i..i + |sub|] == s[i + 1..i + 1 + |sub|];
        assert OccursAt(s, sub, i + 1);
      }
      if exists i :: OccursAt(s, sub, i) {
        var i :| OccursAt(s, sub, i);
        if i > 0 {
          assert s[1..][i - 1..i - 1 + |sub|] == s[i..i + |sub|];
          assert OccursAt(s[1..], sub, i - 1);
        }
      }
    } else if exists i :: OccursAt(s, sub, i) {
      var i :| OccursAt(s, sub, i);
      assert i == 0 && StartsWith(s, sub);
    }
  }

  /** A text shorter than `sub` does not contain it. */
  lemma {:induction false} ShortNotContains(s: string, sub: string)
    requires |s| < |sub|
    ensures !Contains(s, sub)
    decreases |s|
  {
    if |s| > 0 {
      ShortNotContains(s[1..], sub);
    }
  }

  /** A text that does not start with `sub` contains it only past its first character. */
  lemma ConsNotContains(c: char, t: string, sub: string)
    requires !Contains(t, sub) && !StartsWith([c] + t, sub)
    ensures !Contains([c] + t, sub)
  {
    assert ([c] + t)[1..] == t;
  }

  /**
   * Python's `s.split(sep)` for a non-empty separator: the pieces between the leftmost
   * non-overlapping occurrences of `sep`, always at least one piece.
   */
  function Split(s: string, sep: string): (parts: seq<string>)
    requires sep != []
    ensures |parts| >= 1
    ensures |parts[0]| <= |s| && parts[0] == s[..|parts[0]|]
    ensures forall i :: 0 <= i < |parts| ==> !Contains(parts[i], sep)
    decreases |s|
  {
    if |s| < |sep| then
      ShortNotContains(s, sep);
      [s]
    else if s[..|sep|] == sep then
      ShortNotContains("", sep);
      [""] + Split(s[|sep|..], sep)
    else
      var rest := Split(s[1..], sep);
      var head := [s[0]] + rest[0];
      assert s[..|head|] == [s[0]] + s[1..][..|rest[0]|];
      assert |sep| <= |head| ==> head[..|sep|] == s[..|sep|];
      ConsNotContains(s[0], rest[0], sep);
      [head] + rest[1..]
  }

  /** Python's `sep.join(parts)`. */
  function Join(parts: seq<string>, sep: string): string
    requires |parts| >= 1
  {
    if |parts| == 1 then parts[0] else parts[0] + sep + Join(parts[1..], sep)
  }

  /** Splitting loses nothing: joining the pieces back with the separator gives the original text. */
  lemma {:induction false} JoinSplit(s: string, sep: string)
    requires sep != []
    ensures Join(Split(s, sep), sep) == s
    decreases |s|
  {
    if |s| < |sep| {
    } else if s[..|sep|] == sep {
      var tail := Split(s[|sep|..], sep);
      JoinSplit(s[|sep|..], sep);
      assert Split(s, sep) == [""] + tail;
      assert ([""] + tail)[1..] == tail;
      assert s == sep + s[|sep|..];
    } else {
      var rest := Split(s[1..], sep);
      JoinSplit(s[1..], sep);
      assert Split(s, sep) == [[s[0]] + rest[0]] + rest[1..];
      JoinPrepend(rest, s[0], sep);
      assert s == [s[0]] + s[1..];
    }
  }

  /**
   * `split` cuts at the leftmost occurrence of the separator: when there is more than one piece,
   * the separator occurs right after the first piece and nowhere earlier, and the other pieces are
   * the split of what follows it. This fixes the split of a text whose separator occurrences overlap.
   */
  lemma {:induction false} SplitAtLeftmost(s: string, sep: string)
    requires sep != []
    ensures var p := Split(s, sep);
      |p| > 1 ==>
        && OccursAt(s, sep, |p[0]|)
        && (forall i :: 0 <= i < |p[0]| ==> !OccursAt(s, sep, i))
        && p[1..] == Split(s[|p[0]| + |sep|..], sep)
    decreases |s|
  {
    var p := Split(s, sep);
    if |s| < |sep| {
      assert p == [s];
    } else if s[..|sep|] == sep {
      SplitAtSeparator(s, sep);
      assert OccursAt(s, sep, 0);
    } else {
      var rest := Split(s[1..], sep);
      SplitPastFirst(s, sep);
      assert |p[0]| == |rest[0]| + 1 && p[1..] == rest[1..];
      if |rest| > 1 {
        var k := |rest[0]|;
        SplitAtLeftmost(s[1..], sep);
        assert OccursAt(s[1..], sep, k) && rest[1..] == Split(s[1..][k + |sep|..], sep);
        LeftmostPastFirst(s, sep, k);
      }
    }
  }

  /** When `s` starts with the separator, its first piece is empty and the others are the split of what follows. */
  lemma SplitAtSeparator(s: string, sep: string)
    requires sep != [] && |s| >= |sep| && s[..|sep|] == sep
    ensures Split(s, sep) == [""] + Split(s[|sep|..], sep)
  {
  }

  /** A leftmost occurrence at `k` in `s[1..]`, when `s` does not start with `sep`, is a leftmost occurrence at `k + 1` in `s`. */
  lemma LeftmostPastFirst(s: string, sep: string, k: nat)
    requires |s| >= |sep| && s[..|sep|] != sep
    requires OccursAt(s[1..], sep, k) && forall i :: 0 <= i < k ==> !OccursAt(s[1..], sep, i)
    ensures OccursAt(s, sep, k + 1) && forall i :: 0 <= i < k + 1 ==> !OccursAt(s, sep, i)
    ensures s[1..][k + |sep|..] == s[k + 1 + |sep|..]
  {
    OccursShift(s, sep, k);
    forall i | 0 <= i < k + 1 ensures !OccursAt(s, sep, i) {
      if i > 0 { OccursShift(s, sep, i - 1); }
    }
  }

  /** When `s` does not start with the separator, its first piece is its first character and the first piece of the rest. */
  lemma SplitPastFirst(s: string, sep: string)
    requires sep != [] && |s| >= |sep| && s[..|sep|] != sep
    ensures var rest := Split(s[1..], sep);
      Split(s, sep) == [[s[0]] + rest[0]] + rest[1..]
  {
  }

  /** An occurrence at `i + 1` in `s` is an occurrence at `i` in `s[1..]`. */
  lemma OccursShift(s: string, sub: string, i: nat)
    requires |s| > 0
    ensures OccursAt(s, sub, i + 1) <==> OccursAt(s[1..], sub, i)
  {
    if i + |sub| < |s| {
      assert s[1..][i..i + |sub|] == s[i + 1..i + 1 + |sub|];
    }
  }

  /** Prefixing the first piece with a character prefixes the joined text with it. */
  lemma JoinPrepend(parts: seq<string>, c: char, sep: string)
    requires |parts| >= 1
    ensures Join([[c] + parts[0]] + parts[1..], sep) == [c] + Join(parts, sep)
  {
    var q := [[c] + parts[0]] + parts[1..];
    assert q[0] == [c] + parts[0] && q[1..] == parts[1..];
  }

  /** A text without the separator splits into itself alone. */
  lemma {:induction false} SplitWithoutSeparator(s: string, sep: string)
    requires sep != [] && !Contains(s, sep)
    ensures Split(s, sep) == [s]
    decreases |s|
  {
    if |s| >= |sep| {
      SplitWithoutSeparator(s[1..], sep);
      assert [s[0]] + s[1..] == s;
    }
  }

  /** Python's `s[:n]`: the first `n` characters, or all of `s` when it is shorter. */
  function Take(s: string, n: nat): (r: string)
    ensures |r| == if |s| <= n then |s| else n
    ensures r == s[..|r|]
  {
    if |s| <= n then s else s[..n]
  }

  function DigitChar(d: nat): (c: char)
    requires d < 10
    ensures '0' <= c <= '9'
  {
    ['0', '1', '2', '3', '4', '5', '6', '7', '8', '9'][d]
  }

  function DigitValue(c: char): nat
    requires '0' <= c <= '9'
  {
    c as nat - '0' as nat
  }

  /** Python's `str(n)` for a non-negative integer: its decimal digits without leading zeros. */
  function Decimal(n: nat): (r: string)
    ensures |r| >= 1 && (forall i :: 0 <= i < |r| ==> '0' <= r[i] <= '9')
    ensures |r| > 1 ==> r[0] != '0'
  {
    if n < 10 then [DigitChar(n)] else Decimal(n / 10) + [DigitChar(n % 10)]
  }

  /** The value of a string of decimal digits. */
  function DecimalValue(r: string): nat
    requires forall i :: 0 <= i < |r| ==> '0' <= r[i] <= '9'
  {
    if r == [] then 0 else 10 * DecimalValue(r[..|r| - 1]) + DigitValue(r[|r| - 1])
  }

  /** Reading back the decimal form gives the number, so distinct numbers have distinct forms. */
  lemma {:induction false} DecimalRoundTrip(n: nat)
    ensures DecimalValue(Decimal(n)) == n
  {
    if n >= 10 {
      DecimalRoundTrip(n / 10);
      var r := Decimal(n);
      assert r[..|r| - 1] == Decimal(n / 10);
      DigitRoundTrip(n % 10);
      assert n == 10 * (n / 10) + n % 10;
    } else {
      DigitRoundTrip(n);
    }
  }

  /** A digit's character reads back as the digit. */
  lemma DigitRoundTrip(d: nat)
    requires d < 10
    ensures DigitValue(DigitChar(d)) == d
  {
  }
}
