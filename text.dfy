/**
 The two Python string methods the engine relies on: `str.strip()` with no
 argument and `str.replace(old, new)`.
 */
module Text {

  /** Python's `str.isspace()` set: the characters that `str.strip()` removes. */
  predicate IsWhitespace(c: char) {
    ('\t' <= c <= '\r') || ('\U{1C}' <= c <= '\U{1F}') || c == ' '
    || c == '\U{85}' || c == '\U{A0}' || c == '\U{1680}'
    || ('\U{2000}' <= c <= '\U{200A}') || c == '\U{2028}' || c == '\U{2029}'
    || c == '\U{202F}' || c == '\U{205F}' || c == '\U{3000}'
  }

  predicate AllWhitespace(s: string) {
    forall i :: 0 <= i < |s| ==> IsWhitespace(s[i])
  }

  /** Neither end of `s` is a whitespace character. */
  predicate Trimmed(s: string) {
    s == [] || (!IsWhitespace(s[0]) && !IsWhitespace(s[|s| - 1]))
  }

  /** `s.lstrip()` */
  function StripLeading(s: string): string {
    if s != [] && IsWhitespace(s[0]) then StripLeading(s[1..]) else s
  }

  /** `s.rstrip()` */
  function StripTrailing(s: string): string {
    if s != [] && IsWhitespace(s[|s| - 1]) then StripTrailing(s[..|s| - 1]) else s
  }

  /** `lstrip` leaves the suffix after the leading whitespace. */
  lemma {:induction false} StripLeadingSuffix(s: string)
    ensures var r := StripLeading(s);
            |r| <= |s| && r == s[|s| - |r|..] && AllWhitespace(s[..|s| - |r|])
            && (r == [] || !IsWhitespace(r[0]))
  {
    if s != [] && IsWhitespace(s[0]) {
      StripLeadingSuffix(s[1..]);
      var r := StripLeading(s[1..]);
      assert s[1..][|s| - 1 - |r|..] == s[|s| - |r|..];
      forall i | 0 <= i < |s| - |r| ensures IsWhitespace(s[i]) {
        if i > 0 { assert s[i] == s[1..][..|s| - 1 - |r|][i - 1]; }
      }
    }
  }

  /** `rstrip` leaves the prefix before the trailing whitespace. */
  lemma {:induction false} StripTrailingPrefix(s: string)
    ensures var r := StripTrailing(s);
            |r| <= |s| && r == s[..|r|] && AllWhitespace(s[|r|..])
            && (r == [] || !IsWhitespace(r[|r| - 1]))
  {
    if s != [] && IsWhitespace(s[|s| - 1]) {
      var init := s[..|s| - 1];
      StripTrailingPrefix(init);
      var r := StripTrailing(init);
      assert init[..|r|] == s[..|r|];
      forall i | |r| <= i < |s| ensures IsWhitespace(s[i]) {
        if i < |s| - 1 { assert s[i] == init[|r|..][i - |r|]; }
      }
    }
  }

  /** `s.strip()`. */
  function Strip(s: string): string {
    StripTrailing(StripLeading(s))
  }

  /** The result of `strip` is the one infix of `s` that is flanked by
      whitespace only and neither begins nor ends with whitespace. */
  lemma StripInfix(s: string)
    ensures var r := Strip(s);
            exists i :: 0 <= i <= |s| - |r| && r == s[i..i + |r|]
                        && AllWhitespace(s[..i]) && AllWhitespace(s[i + |r|..])
    ensures Trimmed(Strip(s))
  {
    var t := StripLeading(s);
    var r := StripTrailing(t);
    StripLeadingSuffix(s);
    StripTrailingPrefix(t);
    var i := |s| - |t|;
    assert r == s[i..i + |r|] && s[i + |r|..] == t[|r|..];
  }

  /** Text without surrounding whitespace is left as it is. */
  lemma StripTrimmed(s: string)
    requires Trimmed(s)
    ensures Strip(s) == s
  {
    assert StripLeading(s) == s;
    assert StripTrailing(s) == s;
  }

  /** `p` occurs in `s` starting at index `i`. */
  predicate OccursAt(s: string, p: string, i: int) {
    0 <= i <= |s| - |p| && s[i..i + |p|] == p
  }

  predicate Occurs(s: string, p: string) {
    exists i :: 0 <= i <= |s| - |p| && OccursAt(s, p, i)
  }

  /** `s.replace(p, r)`: every occurrence of `p`, found left to right without
      overlapping, is replaced by `r`. */
  function ReplaceAll(s: string, p: string, r: string): string
    requires |p| > 0
    decreases |s|
  {
    if |s| < |p| then s
    else if s[..|p|] == p then r + ReplaceAll(s[|p|..], p, r)
    else [s[0]] + ReplaceAll(s[1..], p, r)
  }

  /** Every character of the result comes from `s` or from `r`. */
  lemma {:induction false} ReplaceAllChars(s: string, p: string, r: string, c: char)
    requires |p| > 0
    requires c in ReplaceAll(s, p, r)
    ensures c in s || c in r
    decreases |s|
  {
    if |s| < |p| {
    } else if s[..|p|] == p {
      if c !in r {
        ReplaceAllChars(s[|p|..], p, r, c);
      }
    } else if c != s[0] {
      ReplaceAllChars(s[1..], p, r, c);
    }
  }

  /** A character that is in neither `s` nor `r` is not in the result. */
  lemma KeepsOut(s: string, p: string, r: string, c: char)
    requires |p| > 0 && c !in s && c !in r
    ensures c !in ReplaceAll(s, p, r)
  {
    if c in ReplaceAll(s, p, r) {
      ReplaceAllChars(s, p, r, c);
    }
  }

  /** Replacing a one-character pattern by text without it removes it. */
  lemma {:induction false} ReplaceAllRemovesChar(s: string, p: string, r: string)
    requires |p| == 1 && p[0] !in r
    ensures p[0] !in ReplaceAll(s, p, r)
    decreases |s|
  {
    if |s| < |p| {
    } else if s[..|p|] == p {
      ReplaceAllRemovesChar(s[|p|..], p, r);
    } else {
      ReplaceAllRemovesChar(s[1..], p, r);
    }
  }

  /** Text that holds no first character of `p` passes through unchanged,
      and the scan resumes just after it. */
  lemma {:induction false} ReplaceAllSkip(x: string, y: string, p: string, r: string)
    requires |p| > 0 && p[0] !in x
    ensures ReplaceAll(x + y, p, r) == x + ReplaceAll(y, p, r)
    decreases |x|
  {
    if x != [] {
      var s := x + y;
      assert s[0] == x[0] && x[0] in x;
      if |s| >= |p| {
        assert s[..|p|][0] == x[0];
        assert s[..|p|] != p;
        assert s[1..] == x[1..] + y;
        calc {
          ReplaceAll(s, p, r);
          [x[0]] + ReplaceAll(x[1..] + y, p, r);
          { ReplaceAllSkip(x[1..], y, p, r); }
          [x[0]] + (x[1..] + ReplaceAll(y, p, r));
          { assert x == [x[0]] + x[1..]; }
          x + ReplaceAll(y, p, r);
        }
      } else {
        ReplaceAllShort(y, p, r);
      }
    } else {
      assert x + y == y;
    }
  }

  lemma ReplaceAllShort(s: string, p: string, r: string)
    requires |p| > 0 && |s| < |p|
    ensures ReplaceAll(s, p, r) == s
  {
  }

  /** The first occurrence of `p` after a stretch without its first character
      is the one that is replaced. */
  lemma ReplaceAllAt(x: string, y: string, p: string, r: string)
    requires |p| > 0 && p[0] !in x
    ensures ReplaceAll(x + p + y, p, r) == x + r + ReplaceAll(y, p, r)
  {
    assert x + p + y == x + (p + y);
    ReplaceAllSkip(x, p + y, p, r);
    assert (p + y)[..|p|] == p && (p + y)[|p|..] == y;
  }

  /** Without an occurrence of `p`, `s` is returned unchanged. */
  lemma {:induction false} ReplaceAllAbsent(s: string, p: string, r: string)
    requires |p| > 0 && !Occurs(s, p)
    ensures ReplaceAll(s, p, r) == s
    decreases |s|
  {
    if |s| >= |p| {
      assert !OccursAt(s, p, 0);
      forall i | OccursAt(s[1..], p, i) ensures OccursAt(s, p, i + 1) {
        assert s[1..][i..i + |p|] == s[i + 1..i + 1 + |p|];
      }
      ReplaceAllAbsent(s[1..], p, r);
      assert s == [s[0]] + s[1..];
    }
  }

  /** No occurrence of `p` in `x + y` starts inside `x` and ends inside `y`. */
  predicate NoStraddle(x: string, y: string, p: string) {
    forall i :: 0 <= i < |x| < i + |p| ==> !OccursAt(x + y, p, i)
  }

  /** A pattern whose first character appears nowhere it could start does not
      occur. */
  lemma NotOccursWithoutHead(s: string, p: string)
    requires |p| > 0 && forall i :: 0 <= i <= |s| - |p| ==> s[i] != p[0]
    ensures !Occurs(s, p)
  {
    forall i | 0 <= i <= |s| - |p| ensures !OccursAt(s, p, i) {
      assert s[i..i + |p|][0] == s[i];
    }
  }

  /** Dropping a prefix of `x` keeps the boundary free of straddling occurrences. */
  lemma NoStraddleDrop(x: string, y: string, p: string, k: nat)
    requires NoStraddle(x, y, p) && k <= |x|
    ensures NoStraddle(x[k..], y, p)
  {
    var x' := x[k..];
    assert x' + y == (x + y)[k..];
    forall i | 0 <= i < |x'| < i + |p| ensures !OccursAt(x' + y, p, i) {
      assert !OccursAt(x + y, p, i + k);
      if i + |p| <= |x' + y| {
        assert (x + y)[i + k..i + k + |p|] == (x' + y)[i..i + |p|];
      }
    }
  }

  /** When no occurrence of the pattern straddles the boundary, the two parts
      are rewritten independently. */
  lemma {:induction false} ReplaceAllSplit(x: string, y: string, p: string, r: string)
    requires |p| > 0 && NoStraddle(x, y, p)
    ensures ReplaceAll(x + y, p, r) == ReplaceAll(x, p, r) + ReplaceAll(y, p, r)
    decreases |x|
  {
    var s := x + y;
    if x == [] {
      assert s == y;
    } else if |s| < |p| {
      ReplaceAllShort(x, p, r);
      ReplaceAllShort(y, p, r);
    } else if s[..|p|] == p {
      assert OccursAt(s, p, 0);
      assert x[..|p|] == p && s[|p|..] == x[|p|..] + y;
      NoStraddleDrop(x, y, p, |p|);
      ReplaceAllSplit(x[|p|..], y, p, r);
    } else {
      assert s[1..] == x[1..] + y;
      NoStraddleDrop(x, y, p, 1);
      ReplaceAllSplit(x[1..], y, p, r);
      if |x| < |p| {
        ReplaceAllShort(x, p, r);
        ReplaceAllShort(x[1..], p, r);
        assert x == [x[0]] + x[1..];
      } else {
        assert x[..|p|] == s[..|p|];
      }
    }
  }

  /** A written occurrence of a pattern that cannot overlap itself (its first
      character does not recur in it) is replaced whole, and the text on
      either side is rewritten on its own. */
  lemma ReplaceAllAround(x: string, y: string, p: string, r: string)
    requires |p| > 0 && p[0] !in p[1..]
    ensures ReplaceAll(x + p + y, p, r) == ReplaceAll(x, p, r) + r + ReplaceAll(y, p, r)
  {
    var s := x + (p + y);
    assert x + p + y == s;
    forall i | 0 <= i < |x| < i + |p| ensures !OccursAt(s, p, i) {
      assert s[|x|] == p[0];
      assert s[i..i + |p|][|x| - i] == s[|x|];
      assert p[1..][|x| - i - 1] == p[|x| - i];
    }
    ReplaceAllSplit(x, p + y, p, r);
    ReplaceAllAt([], y, p, r);
    assert [] + p + y == p + y;
  }

  /** Joining two texts creates no occurrence of a two-character pattern
      unless the first ends with its first character and the second begins
      with its second. */
  lemma ReplaceAllJoin(x: string, y: string, p: string, r: string)
    requires |p| == 2 && !(x != [] && y != [] && x[|x| - 1] == p[0] && y[0] == p[1])
    ensures ReplaceAll(x + y, p, r) == ReplaceAll(x, p, r) + ReplaceAll(y, p, r)
  {
    if x == [] {
      assert x + y == y;
    } else if y == [] {
      assert x + y == x;
      ReplaceAllShort(y, p, r);
    } else {
      forall i | 0 <= i < |x| < i + |p| ensures !OccursAt(x + y, p, i) {
        assert (x + y)[i..i + |p|] == [x[|x| - 1], y[0]];
      }
      ReplaceAllSplit(x, y, p, r);
    }
  }

  /** A replacement no longer than the pattern never lengthens the text. */
  lemma {:induction false} ReplaceAllShrinks(s: string, p: string, r: string)
    requires |p| > 0 && |r| <= |p|
    ensures |ReplaceAll(s, p, r)| <= |s|
    decreases |s|
  {
    if |s| < |p| {
    } else if s[..|p|] == p {
      ReplaceAllShrinks(s[|p|..], p, r);
    } else {
      ReplaceAllShrinks(s[1..], p, r);
    }
  }

  /** A one-character pattern is replaced independently in each part. */
  lemma {:induction false} ReplaceAllCharConcat(x: string, y: string, p: string, r: string)
    requires |p| == 1
    ensures ReplaceAll(x + y, p, r) == ReplaceAll(x, p, r) + ReplaceAll(y, p, r)
    decreases |x|
  {
    if x != [] {
      var s := x + y;
      assert s[..1] == x[..1] && s[1..] == x[1..] + y;
      ReplaceAllCharConcat(x[1..], y, p, r);
      var head := if x[..1] == p then r else [x[0]];
      calc {
        ReplaceAll(s, p, r);
        head + ReplaceAll(x[1..] + y, p, r);
        head + (ReplaceAll(x[1..], p, r) + ReplaceAll(y, p, r));
        (head + ReplaceAll(x[1..], p, r)) + ReplaceAll(y, p, r);
        ReplaceAll(x, p, r) + ReplaceAll(y, p, r);
      }
    } else {
      assert x + y == y;
    }
  }
}
