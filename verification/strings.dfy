/**
  The string operations of JavaScript the routes use, on `seq<char>`:
  global deletion of a literal pattern (`s.replace(/p/g, '')`) and
  `Array.join`, with `split` at a literal separator as the join's reader
  (the routes themselves never split).
 */
module Strings {

  /** `p` occurs in `s` starting at index `i`. */
  predicate OccursAt(s: string, p: string, i: nat)
  {
    i + |p| <= |s| && s[i..i + |p|] == p
  }

  ghost predicate Occurs(s: string, p: string)
  {
    exists i: nat :: OccursAt(s, p, i)
  }

  /**
    Deletes every occurrence of `p`, scanning left to right and resuming after
    each match, as a global regular-expression replace by the empty string does.
   */
  function DeleteAll(s: string, p: string): (r: string)
    requires |p| > 0
    ensures |r| <= |s|
    decreases |s|
  {
    if |s| < |p| then s
    else if s[..|p|] == p then DeleteAll(s[|p|..], p)
    else [s[0]] + DeleteAll(s[1..], p)
  }

  /** An occurrence in a suffix is an occurrence in the whole string. */
  lemma OccursInSuffix(s: string, p: string, k: nat, i: nat)
    requires k <= |s| && OccursAt(s[k..], p, i)
    ensures OccursAt(s, p, k + i)
  {
    assert s[k..][i..i + |p|] == s[k + i..k + i + |p|];
  }

  /** Deleting a pattern that does not occur changes nothing. */
  lemma {:induction false} DeleteAllAbsent(s: string, p: string)
    requires |p| > 0 && !Occurs(s, p)
    ensures DeleteAll(s, p) == s
    decreases |s|
  {
    if |s| >= |p| {
      assert !OccursAt(s, p, 0);
      assert s[..|p|] != p;
      forall i: nat | OccursAt(s[1..], p, i) ensures false {
        OccursInSuffix(s, p, 1, i);
      }
      DeleteAllAbsent(s[1..], p);
    }
  }

  /** A prefix without the pattern's first character passes through unchanged. */
  lemma {:induction false} DeleteAllKeepsPrefix(a: string, b: string, p: string)
    requires |p| > 0 && p[0] !in a
    ensures DeleteAll(a + b, p) == a + DeleteAll(b, p)
    decreases |a|
  {
    if |a| > 0 {
      var s := a + b;
      assert s[0] == a[0];
      if |s| >= |p| {
        assert s[..|p|] != p;
        assert s[1..] == a[1..] + b;
        DeleteAllKeepsPrefix(a[1..], b, p);
        calc {
          DeleteAll(s, p);
          [a[0]] + DeleteAll(a[1..] + b, p);
          [a[0]] + (a[1..] + DeleteAll(b, p));
          { assert [a[0]] + a[1..] == a; }
          a + DeleteAll(b, p);
        }
      } else {
        assert DeleteAll(s, p) == s && DeleteAll(b, p) == b;
      }
    } else {
      assert a + b == b;
    }
  }

  /** `parts.join(sep)`. */
  function Join(parts: seq<string>, sep: string): string
  {
    if |parts| == 0 then ""
    else if |parts| == 1 then parts[0]
    else parts[0] + sep + Join(parts[1..], sep)
  }

  /** Every character of a join comes from a part or from the separator. */
  lemma {:induction false} JoinChars(parts: seq<string>, sep: string, c: char)
    requires c !in sep && forall k :: 0 <= k < |parts| ==> c !in parts[k]
    ensures c !in Join(parts, sep)
  {
    if |parts| > 1 {
      JoinChars(parts[1..], sep, c);
    }
  }

  /**
    `s.split(sep)`: the pieces between the leftmost non-overlapping
    occurrences of `sep`; the empty string splits into one empty piece.
   */
  function Split(s: string, sep: string): (r: seq<string>)
    requires |sep| > 0
    ensures |r| >= 1
    decreases |s|
  {
    if |s| < |sep| then [s]
    else if s[..|sep|] == sep then [""] + Split(s[|sep|..], sep)
    else
      var rest := Split(s[1..], sep);
      [[s[0]] + rest[0]] + rest[1..]
  }

  /** A piece without the separator's first character splits into itself. */
  lemma {:induction false} SplitSingle(s: string, sep: string)
    requires |sep| > 0 && sep[0] !in s
    ensures Split(s, sep) == [s]
    decreases |s|
  {
    if |s| >= |sep| {
      assert s[0] != sep[0];
      SplitSingle(s[1..], sep);
      assert [s[0]] + s[1..] == s;
    }
  }

  /** A piece without the separator's first character, then the separator, splits off that piece. */
  lemma {:induction false} SplitAfterPiece(piece: string, sep: string, rest: string)
    requires |sep| > 0 && sep[0] !in piece
    ensures Split(piece + sep + rest, sep) == [piece] + Split(rest, sep)
    decreases |piece|
  {
    var s := piece + sep + rest;
    if |piece| == 0 {
      assert s[..|sep|] == sep && s[|sep|..] == rest;
    } else {
      assert s[0] == piece[0] && s[0] != sep[0];
      assert s[1..] == piece[1..] + sep + rest;
      SplitAfterPiece(piece[1..], sep, rest);
      assert [piece[0]] + piece[1..] == piece;
    }
  }

  /** Splitting a join recovers the parts, when no part holds the separator's first character. */
  lemma {:induction false} SplitJoin(parts: seq<string>, sep: string)
    requires |parts| >= 1 && |sep| > 0
    requires forall k :: 0 <= k < |parts| ==> sep[0] !in parts[k]
    ensures Split(Join(parts, sep), sep) == parts
  {
    if |parts| == 1 {
      SplitSingle(parts[0], sep);
    } else {
      SplitJoin(parts[1..], sep);
      SplitAfterPiece(parts[0], sep, Join(parts[1..], sep));
    }
  }

  /** With a one-character separator, splitting distributes over a separator occurrence. */
  lemma {:induction false} SplitAround(a: string, c: char, b: string)
    ensures Split(a + [c] + b, [c]) == Split(a, [c]) + Split(b, [c])
    decreases |a|
  {
    var s := a + [c] + b;
    if |a| == 0 {
      assert s[1..] == b;
    } else {
      assert s[1..] == a[1..] + [c] + b;
      SplitAround(a[1..], c, b);
    }
  }
}
