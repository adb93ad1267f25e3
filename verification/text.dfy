/**
 * The string operations the page components rely on, over ASCII:
 * `toLowerCase`, `includes` and `trim` of JavaScript strings.
 */
module Text {

  /** `toLowerCase` on one character; only the ASCII letters are folded. */
  function LowerChar(c: char): (r: char)
    ensures 'A' <= c <= 'Z' ==> r as int == c as int + 32
    ensures !('A' <= c <= 'Z') ==> r == c
    ensures !('A' <= r <= 'Z')
  {
    if 'A' <= c <= 'Z' then (c as int + 32) as char else c
  }

  /** `s.toLowerCase()`, character by character. */
  function Lower(s: string): (r: string)
    ensures |r| == |s|
    ensures forall i :: 0 <= i < |s| ==> r[i] == LowerChar(s[i])
  {
    if s == [] then [] else [LowerChar(s[0])] + Lower(s[1..])
  }

  /** Two strings that differ only in the case of ASCII letters. */
  predicate SameUpToCase(a: string, b: string)
  {
    |a| == |b| && forall i :: 0 <= i < |a| ==> LowerChar(a[i]) == LowerChar(b[i])
  }

  /** Strings equal up to case have the same lower-case form, and conversely. */
  lemma SameUpToCaseIffSameLower(a: string, b: string)
    ensures SameUpToCase(a, b) <==> Lower(a) == Lower(b)
  {
    if Lower(a) == Lower(b) {
      assert |a| == |Lower(a)|;
      forall i | 0 <= i < |a| ensures LowerChar(a[i]) == LowerChar(b[i]) {
        assert Lower(a)[i] == Lower(b)[i];
      }
    }
  }

  predicate StartsWith(s: string, prefix: string)
  {
    |prefix| <= |s| && s[..|prefix|] == prefix
  }

  /** `s.includes(sub)`: sub occurs in s at some position. */
  predicate Includes(s: string, sub: string)
    ensures Includes(s, sub) ==> |sub| <= |s|
    decreases |s|
  {
    StartsWith(s, sub) || (|s| > 0 && Includes(s[1..], sub))
  }

  /** `Includes` holds exactly when `sub` is the slice of `s` at some position. */
  lemma {:induction false} IncludesIffSliceAt(s: string, sub: string)
    ensures Includes(s, sub) <==> OccursIn(s, sub)
    decreases |s|
  {
    if StartsWith(s, sub) {
      assert SliceAt(s, sub, 0);
    } else if |s| > 0 {
      IncludesIffSliceAt(s[1..], sub);
      if Includes(s[1..], sub) {
        var i :| SliceAt(s[1..], sub, i);
        SliceAtTail(s, sub, i);
      }
      if OccursIn(s, sub) {
        var i :| SliceAt(s, sub, i);
        assert i != 0;
        SliceAtTail(s, sub, i - 1);
      }
    } else {
      assert !SliceAt(s, sub, 0);
    }
  }

  /** Dropping the first character shifts every occurrence one position to the left. */
  lemma SliceAtTail(s: string, sub: string, i: int)
    requires |s| > 0 && 0 <= i
    ensures SliceAt(s[1..], sub, i) <==> SliceAt(s, sub, i + 1)
  {
    if 0 <= i <= |s| - 1 - |sub| {
      assert s[1..][i..i + |sub|] == s[i + 1..i + 1 + |sub|];
    }
  }

  /** `sub` occurs in `s` at some offset: the reference meaning of a substring test. */
  ghost predicate OccursIn(s: string, sub: string)
  {
    exists i :: SliceAt(s, sub, i)
  }

  /** `sub` is the slice of `s` that starts at offset `i`. */
  predicate SliceAt(s: string, sub: string, i: int)
  {
    0 <= i <= |s| - |sub| && s[i..i + |sub|] == sub
  }

  /**
   * The characters `String.prototype.trim` removes: the ECMAScript
   * WhiteSpace code points (tab, vertical tab, form feed, space, no-break
   * space, byte-order mark and the other space separators) and the
   * LineTerminator code points.
   */
  predicate IsWhitespace(c: char)
  {
    c == '\t' || c == '\n' || c == '\U{B}' || c == '\U{C}' || c == '\r' || c == ' '
    || c == '\U{A0}' || c == '\U{1680}' || ('\U{2000}' <= c <= '\U{200A}')
    || c == '\U{2028}' || c == '\U{2029}' || c == '\U{202F}' || c == '\U{205F}'
    || c == '\U{3000}' || c == '\U{FEFF}'
  }

  predicate AllWhitespace(s: string)
  {
    forall i :: 0 <= i < |s| ==> IsWhitespace(s[i])
  }

  /** Drops leading whitespace: the result is the suffix of s after its longest blank prefix. */
  function TrimStart(s: string): (r: string)
    ensures |r| <= |s| && r == s[|s| - |r|..]
    ensures forall j :: 0 <= j < |s| - |r| ==> IsWhitespace(s[j])
    ensures r == [] || !IsWhitespace(r[0])
  {
    if s != [] && IsWhitespace(s[0]) then TrimStart(s[1..]) else s
  }

  /** Drops trailing whitespace: the result is the prefix of s before its longest blank suffix. */
  function TrimEnd(s: string): (r: string)
    ensures |r| <= |s| && r == s[..|r|]
    ensures forall j :: |r| <= j < |s| ==> IsWhitespace(s[j])
    ensures r == [] || !IsWhitespace(r[|r| - 1])
  {
    if s != [] && IsWhitespace(s[|s| - 1]) then TrimEnd(s[..|s| - 1]) else s
  }

  /**
   * `s.trim()`: the contiguous part of s left once the blank prefix and the blank suffix are
   * removed; it neither starts nor ends with whitespace.
   */
  function Trim(s: string): (r: string)
    ensures r == [] || (!IsWhitespace(r[0]) && !IsWhitespace(r[|r| - 1]))
    ensures exists i :: TrimmedAt(s, r, i)
  {
    var t := TrimStart(s);
    var r := TrimEnd(t);
    BlankAroundSlice(s, t, r);
    r
  }

  /** r is the slice of s at offset i, and everything before and after it is whitespace. */
  predicate TrimmedAt(s: string, r: string, i: int)
  {
    SliceAt(s, r, i) && AllWhitespace(s[..i]) && AllWhitespace(s[i + |r|..])
  }

  /** A prefix r of the suffix t of s, each cut off a blank part, sits in s between two blank parts. */
  lemma BlankAroundSlice(s: string, t: string, r: string)
    requires |t| <= |s| && t == s[|s| - |t|..]
    requires forall j :: 0 <= j < |s| - |t| ==> IsWhitespace(s[j])
    requires |r| <= |t| && r == t[..|r|]
    requires forall j :: |r| <= j < |t| ==> IsWhitespace(t[j])
    ensures TrimmedAt(s, r, |s| - |t|)
    ensures r != [] ==> r[0] == t[0]
  {
    var i := |s| - |t|;
    assert s[i..i + |r|] == t[..|r|];
    assert s[i + |r|..] == t[|r|..];
    assert forall j :: 0 <= j < i ==> s[..i][j] == s[j];
    assert forall j :: 0 <= j < |t| - |r| ==> t[|r|..][j] == t[|r| + j];
  }

  /** `!s.trim()` in the source: trimming gives the empty string exactly for blank input. */
  lemma {:induction false} TrimEmptyIffBlank(s: string)
    ensures Trim(s) == "" <==> AllWhitespace(s)
  {
    var t := TrimStart(s);
    var n := |s| - |t|;
    var r := TrimEnd(t);
    if AllWhitespace(s) {
      assert t == [];
    } else {
      var k :| 0 <= k < |s| && !IsWhitespace(s[k]);
      assert n <= k;
      assert t[k - n] == s[k];
      assert k - n < |r|;
    }
  }

  /** Trimming a trimmed string changes nothing: a tag stored trimmed is its own trim. */
  lemma TrimIdempotent(s: string)
    ensures Trim(Trim(s)) == Trim(s)
  {
    var r := Trim(s);
    assert TrimStart(r) == r;
    assert TrimEnd(r) == r;
  }
}
