/**
 * The JavaScript string operations the ingestion path relies on:
 * `trim`, `toLowerCase`, `includes` and `split`, plus the `join` that undoes `split`.
 */
module Text {

  /** The characters `String.prototype.trim` removes: white space and line terminators. */
  predicate IsSpace(c: char) {
    || c == ' ' || c == '\t' || c == '\n' || c == '\r'
    || c == '\U{000B}' || c == '\U{000C}' || c == '\U{00A0}' || c == '\U{FEFF}'
    || c == '\U{1680}' || ('\U{2000}' <= c <= '\U{200A}')
    || c == '\U{2028}' || c == '\U{2029}' || c == '\U{202F}' || c == '\U{205F}' || c == '\U{3000}'
  }

  /** True iff `s` holds nothing but white space, i.e. `!s.trim()` in the source. */
  predicate IsBlank(s: string) {
    forall i :: 0 <= i < |s| ==> IsSpace(s[i])
  }

  function TrimStart(s: string): (r: string)
    ensures |r| <= |s| && r == s[|s| - |r|..]
    ensures forall i :: 0 <= i < |s| - |r| ==> IsSpace(s[i])
    ensures |r| == 0 || !IsSpace(r[0])
  {
    if |s| > 0 && IsSpace(s[0]) then TrimStart(s[1..]) else s
  }

  function TrimEnd(s: string): (r: string)
    ensures |r| <= |s| && r == s[..|r|]
    ensures forall i :: |r| <= i < |s| ==> IsSpace(s[i])
    ensures |r| == 0 || !IsSpace(r[|r| - 1])
  {
    if |s| > 0 && IsSpace(s[|s| - 1]) then TrimEnd(s[..|s| - 1]) else s
  }

  /**
   * `s.trim()`: the slice of `s` that neither starts nor ends with white
   * space and outside of which there is only white space.
   */
  function Trim(s: string): (r: string)
    ensures |r| <= |s|
    ensures |r| == 0 || (!IsSpace(r[0]) && !IsSpace(r[|r| - 1]))
    ensures r == "" <==> IsBlank(s)
    ensures |s| == 0 || (!IsSpace(s[0]) && !IsSpace(s[|s| - 1])) ==> r == s
    ensures exists a :: TrimmedAt(s, r, a)
  {
    var t := TrimStart(s);
    var r := TrimEnd(t);
    TrimmedAtBothEnds(s, t, r);
    r
  }

  /** Cutting white space off the front of `s` and then off the back leaves a trimmed slice. */
  lemma TrimmedAtBothEnds(s: string, t: string, r: string)
    requires |t| <= |s| && t == s[|s| - |t|..]
    requires forall i :: 0 <= i < |s| - |t| ==> IsSpace(s[i])
    requires |r| <= |t| && r == t[..|r|]
    requires forall i :: |r| <= i < |t| ==> IsSpace(t[i])
    requires |r| == 0 || (!IsSpace(r[0]) && !IsSpace(r[|r| - 1]))
    ensures TrimmedAt(s, r, |s| - |t|)
    ensures r == "" <==> IsBlank(s)
    ensures |s| == 0 || (!IsSpace(s[0]) && !IsSpace(s[|s| - 1])) ==> r == s
  {
    var a := |s| - |t|;
    assert forall i :: a + |r| <= i < |s| ==> s[i] == t[i - a];
    TrimmedSliceFacts(s, r, a);
  }

  /**
   * A trimmed slice that neither starts nor ends with white space is empty
   * exactly for a blank string, and is the whole string when that string
   * neither starts nor ends with white space.
   */
  lemma TrimmedSliceFacts(s: string, r: string, a: int)
    requires TrimmedAt(s, r, a)
    requires |r| == 0 || (!IsSpace(r[0]) && !IsSpace(r[|r| - 1]))
    ensures r == "" <==> IsBlank(s)
    ensures |s| == 0 || (!IsSpace(s[0]) && !IsSpace(s[|s| - 1])) ==> r == s
  {
    if |r| > 0 {
      assert s[a] == r[0];
    }
    if |s| > 0 && !IsSpace(s[0]) && !IsSpace(s[|s| - 1]) {
      assert a == 0;
      assert a + |r| == |s|;
    }
  }

  /** `r` is the slice of `s` starting at `a`, and everything around it is white space. */
  predicate TrimmedAt(s: string, r: string, a: int) {
    && 0 <= a <= |s| - |r|
    && r == s[a..a + |r|]
    && forall i :: 0 <= i < |s| && (i < a || a + |r| <= i) ==> IsSpace(s[i])
  }

  /** ASCII case folding, the part of `toLowerCase` that header and search keys use. */
  function LowerChar(c: char): char {
    if 'A' <= c <= 'Z' then (c as int + 32) as char else c
  }

  function Lower(s: string): (r: string)
    ensures |r| == |s|
    ensures forall i :: 0 <= i < |s| ==> r[i] == LowerChar(s[i])
  {
    seq(|s|, i requires 0 <= i < |s| => LowerChar(s[i]))
  }

  /** `t` occurs in `s` starting at position `i`. */
  predicate OccursAt(s: string, t: string, i: int) {
    0 <= i <= |s| - |t| && s[i..i + |t|] == t
  }

  /** `s.includes(t)`: `t` occurs in `s` as a contiguous block. */
  predicate Contains(s: string, t: string) {
    exists i | 0 <= i <= |s| - |t| :: OccursAt(s, t, i)
  }

  /** The empty search term is found in every string. */
  lemma EmptyIsContained(s: string)
    ensures Contains(s, "")
  {
    assert OccursAt(s, "", 0);
  }

  /**
   * `s.split(c)` for a one-character separator: the pieces between the
   * occurrences of `c`; there is always at least one piece.
   */
  function Split(s: string, c: char): (r: seq<string>)
    ensures |r| >= 1
    ensures forall k :: 0 <= k < |r| ==> c !in r[k]
  {
    if |s| == 0 then [""]
    else
      var rest := Split(s[1..], c);
      if s[0] == c then [""] + rest
      else [[s[0]] + rest[0]] + rest[1..]
  }
  /** `parts.join(c)` */
  function Join(parts: seq<string>, c: char): string {
    if |parts| == 0 then ""
    else if |parts| == 1 then parts[0]
    else parts[0] + [c] + Join(parts[1..], c)
  }

  /** Joining the pieces of a split gives the original string back. */
  lemma {:induction false} JoinSplit(s: string, c: char)
    ensures Join(Split(s, c), c) == s
  {
    if |s| > 0 {
      JoinSplit(s[1..], c);
      var rest := Split(s[1..], c);
      if s[0] == c {
        assert s == [c] + s[1..];
      } else if |rest| > 1 {
        assert s == [s[0]] + s[1..];
        assert Join(rest, c) == rest[0] + [c] + Join(rest[1..], c);
      } else {
        assert s == [s[0]] + s[1..];
      }
    }
  }

  /** A separator-free piece followed by the separator splits off as one piece. */
  lemma {:induction false} SplitAfterPiece(p: string, s: string, c: char)
    requires c !in p
    ensures Split(p + [c] + s, c) == [p] + Split(s, c)
  {
    if |p| > 0 {
      SplitAfterPiece(p[1..], s, c);
      var t := p + [c] + s;
      assert t[0] == p[0] && t[0] != c;
      assert t[1..] == p[1..] + [c] + s;
      assert [p[0]] + p[1..] == p;
    } else {
      assert p + [c] + s == [c] + s;
      assert ([c] + s)[1..] == s;
    }
  }

  /** Splitting a join of separator-free pieces gives the pieces back. */
  lemma {:induction false} SplitJoin(parts: seq<string>, c: char)
    requires |parts| >= 1
    requires forall k :: 0 <= k < |parts| ==> c !in parts[k]
    ensures Split(Join(parts, c), c) == parts
  {
    if |parts| == 1 {
      JoinSplit(parts[0], c);
      assert |Split(parts[0], c)| == 1;
    } else {
      SplitJoin(parts[1..], c);
      SplitAfterPiece(parts[0], Join(parts[1..], c), c);
      assert [parts[0]] + parts[1..] == parts;
    }
  }

  /** The split of `a + b`, in terms of the split of `a`. */
  ghost predicate SplitsAcross(a: string, b: string, c: char) {
    var sa := Split(a, c);
    Split(a + b, c) == sa[..|sa| - 1] + Split(sa[|sa| - 1] + b, c)
  }
  /**
   * Splitting a concatenation: every piece of `a` but the last is final, and
   * the last piece of `a` continues into `b`. This is what makes carrying the
   * unfinished last line of one chunk into the next chunk sound.
   */
  lemma {:induction false} SplitAppend(a: string, b: string, c: char)
    ensures SplitsAcross(a, b, c)
  {
    if |a| > 0 {
      SplitAppend(a[1..], b, c);
      if a[0] != c && |Split(a[1..], c)| == 1 {
        JoinSplit(a[1..], c);
      }
      SplitAppendStep(a, b, c);
    }
  }

  lemma SplitAppendStep(a: string, b: string, c: char)
    requires |a| > 0
    requires SplitsAcross(a[1..], b, c)
    requires a[0] != c && |Split(a[1..], c)| == 1 ==> Split(a[1..], c) == [a[1..]]
    ensures SplitsAcross(a, b, c)
  {
    assert (a + b)[1..] == a[1..] + b;
    var sa' := Split(a[1..], c);
    if a[0] == c {
      SplitAppendAtSeparator(a, b, c);
    } else if |sa'| > 1 {
      SplitAppendInsidePiece(a, b, c);
    } else {
      assert Split(a, c) == [[a[0]] + a[1..]];
      assert [a[0]] + a[1..] + b == a + b;
    }
  }

  lemma SplitAppendAtSeparator(a: string, b: string, c: char)
    requires |a| > 0 && a[0] == c
    requires SplitsAcross(a[1..], b, c)
    requires (a + b)[1..] == a[1..] + b
    ensures SplitsAcross(a, b, c)
  {
    var sa', sa := Split(a[1..], c), Split(a, c);
    assert sa == [""] + sa';
    assert sa[..|sa| - 1] == [""] + sa'[..|sa'| - 1];
  }

  lemma SplitAppendInsidePiece(a: string, b: string, c: char)
    requires |a| > 0 && a[0] != c
    requires SplitsAcross(a[1..], b, c)
    requires (a + b)[1..] == a[1..] + b
    requires |Split(a[1..], c)| > 1
    ensures SplitsAcross(a, b, c)
  {
    var sa', sa := Split(a[1..], c), Split(a, c);
    var tail := Split(sa'[|sa'| - 1] + b, c);
    var r := Split(a[1..] + b, c);
    assert r == sa'[..|sa'| - 1] + tail;
    assert sa == [[a[0]] + sa'[0]] + sa'[1..];
    assert r[0] == sa'[0];
    assert r[1..] == sa'[1..|sa'| - 1] + tail;
    assert sa[..|sa| - 1] == [[a[0]] + sa'[0]] + sa'[1..|sa'| - 1];
  }

  /** The first piece of `a` is the first piece of `a + b` as soon as `a` holds a separator. */
  lemma FirstPieceStable(a: string, b: string, c: char)
    requires c in a
    ensures Split(a + b, c)[0] == Split(a, c)[0]
  {
    SplitAppend(a, b, c);
    var sa := Split(a, c);
    if |sa| == 1 {
      JoinSplit(a, c);
    }
  }
}
