/**
 Substring replacement as Python does it: the leftmost occurrence first, then
 on from its end. Line endings and redaction both rest on it.
 */
module Replacing {

  predicate OccursAt<T(==)>(s: seq<T>, pattern: seq<T>, i: nat) {
    i + |pattern| <= |s| && s[i..i + |pattern|] == pattern
  }

  predicate Contains<T(==)>(s: seq<T>, pattern: seq<T>) {
    exists i: nat :: i <= |s| && OccursAt(s, pattern, i)
  }

  function Replace<T(==)>(s: seq<T>, pattern: seq<T>, with: seq<T>): seq<T>
    requires pattern != []
    decreases |s|
  {
    if s == [] then []
    else if pattern <= s then with + Replace(s[|pattern|..], pattern, with)
    else [s[0]] + Replace(s[1..], pattern, with)
  }

  lemma {:induction false} ReplaceFrom<T>(s: seq<T>, pattern: seq<T>, with: seq<T>, i: nat)
    requires pattern != [] && i < |s|
    ensures Replace(s[i..], pattern, with) ==
      if OccursAt(s, pattern, i) then with + Replace(s[i + |pattern|..], pattern, with)
      else [s[i]] + Replace(s[i + 1..], pattern, with)
  {
    assert i + |pattern| <= |s| ==> s[i..][..|pattern|] == s[i..i + |pattern|];
    assert i + |pattern| <= |s| ==> s[i..][|pattern|..] == s[i + |pattern|..];
    assert s[i..][1..] == s[i + 1..];
  }

  lemma Regroup<T>(a: seq<T>, b: seq<T>, c: seq<T>)
    ensures a + (b + c) == (a + b) + c
  {
  }

  /** The scanning loop computes it. */
  method ReplaceAll<T(==)>(s: seq<T>, pattern: seq<T>, with: seq<T>) returns (replaced: seq<T>)
    requires pattern != []
    ensures replaced == Replace(s, pattern, with)
  {
    replaced := [];
    var i := 0;
    ghost var whole := Replace(s, pattern, with);
    assert s[0..] == s;
    while i < |s|
      invariant i <= |s| && replaced + Replace(s[i..], pattern, with) == whole
      decreases |s| - i
    {
      ReplaceFrom(s, pattern, with, i);
      if i + |pattern| <= |s| && s[i..i + |pattern|] == pattern {
        Regroup(replaced, with, Replace(s[i + |pattern|..], pattern, with));
        replaced := replaced + with;
        i := i + |pattern|;
      } else {
        Regroup(replaced, [s[i]], Replace(s[i + 1..], pattern, with));
        replaced := replaced + [s[i]];
        i := i + 1;
      }
    }
  }

  // What it means: cut at the occurrences, join with the replacement

  function Join<T>(pieces: seq<seq<T>>, with: seq<T>): seq<T>
    requires pieces != []
    decreases |pieces|
  {
    if |pieces| == 1 then pieces[0] else pieces[0] + with + Join(pieces[1..], with)
  }

  /** The pieces between the occurrences, leftmost occurrence first. */
  function Split<T(==)>(s: seq<T>, pattern: seq<T>): (pieces: seq<seq<T>>)
    requires pattern != []
    ensures pieces != []
    decreases |s|
  {
    if s == [] then [[]]
    else if pattern <= s then [[]] + Split(s[|pattern|..], pattern)
    else
      var rest := Split(s[1..], pattern);
      [[s[0]] + rest[0]] + rest[1..]
  }

  lemma {:induction false} JoinWithHead<T>(head: seq<T>, pieces: seq<seq<T>>, with: seq<T>)
    requires pieces != []
    ensures Join([head + pieces[0]] + pieces[1..], with) == head + Join(pieces, with)
  {
    var all := [head + pieces[0]] + pieces[1..];
    if |pieces| > 1 {
      assert all[1..] == pieces[1..];
      assert (head + pieces[0]) + with + Join(pieces[1..], with) == head + (pieces[0] + with + Join(pieces[1..], with));
    }
  }

  /** Joining the pieces with the pattern gives the text back, and with anything else the replacement. */
  lemma {:induction false} ReplaceIsSplitJoin<T>(s: seq<T>, pattern: seq<T>, with: seq<T>)
    requires pattern != []
    ensures Join(Split(s, pattern), with) == Replace(s, pattern, with)
    ensures Join(Split(s, pattern), pattern) == s
    decreases |s|
  {
    if s != [] {
      if pattern <= s {
        var rest := s[|pattern|..];
        ReplaceIsSplitJoin(rest, pattern, with);
        var pieces := [[]] + Split(rest, pattern);
        assert pieces[1..] == Split(rest, pattern);
        assert [] + with + Join(Split(rest, pattern), with) == with + Join(Split(rest, pattern), with);
        assert [] + pattern + Join(Split(rest, pattern), pattern) == s;
      } else {
        ReplaceIsSplitJoin(s[1..], pattern, with);
        JoinWithHead([s[0]], Split(s[1..], pattern), with);
        JoinWithHead([s[0]], Split(s[1..], pattern), pattern);
      }
    }
  }

  /** No occurrence starts inside the piece, not even one that runs into `next`. */
  predicate Clean<T(==)>(piece: seq<T>, pattern: seq<T>, next: seq<T>) {
    forall i: nat :: i < |piece| ==> !OccursAt(piece + next, pattern, i)
  }

  predicate AllClean<T(==)>(pieces: seq<seq<T>>, pattern: seq<T>)
    requires pieces != []
    decreases |pieces|
  {
    if |pieces| == 1 then Clean(pieces[0], pattern, [])
    else Clean(pieces[0], pattern, pattern) && AllClean(pieces[1..], pattern)
  }

  lemma CleanWithOneMore<T>(x: T, piece: seq<T>, pattern: seq<T>, next: seq<T>)
    requires Clean(piece, pattern, next) && !OccursAt([x] + piece + next, pattern, 0)
    ensures Clean([x] + piece, pattern, next)
  {
    forall i: nat | i < |[x] + piece|
      ensures !OccursAt([x] + piece + next, pattern, i)
    {
      if i > 0 && OccursAt([x] + piece + next, pattern, i) {
        assert ([x] + piece + next)[i..i + |pattern|] == (piece + next)[i - 1..i - 1 + |pattern|];
        assert OccursAt(piece + next, pattern, i - 1);
      }
    }
  }

  /** Every occurrence is cut, leftmost first: what is left between the cuts holds none. */
  lemma {:induction false} SplitLeavesNothing<T>(s: seq<T>, pattern: seq<T>)
    requires pattern != []
    ensures AllClean(Split(s, pattern), pattern)
    decreases |s|
  {
    var pieces := Split(s, pattern);
    if s != [] {
      if pattern <= s {
        SplitLeavesNothing(s[|pattern|..], pattern);
        assert pieces[1..] == Split(s[|pattern|..], pattern);
      } else {
        var rest := Split(s[1..], pattern);
        SplitLeavesNothing(s[1..], pattern);
        FirstPieceIsPrefix(s, pattern);
        var next := if |rest| > 1 then pattern else [];
        assert !OccursAt([s[0]] + rest[0] + next, pattern, 0) by {
          assert [s[0]] + rest[0] + next <= s;
          assert ([s[0]] + rest[0] + next)[0..] == [s[0]] + rest[0] + next;
        }
        CleanWithOneMore(s[0], rest[0], pattern, next);
        assert pieces[1..] == rest[1..];
      }
    }
  }

  lemma {:induction false} FirstPieceIsPrefix<T>(s: seq<T>, pattern: seq<T>)
    requires pattern != []
    ensures
      var pieces := Split(s, pattern);
      pieces[0] + (if |pieces| > 1 then pattern else []) <= s
    decreases |s|
  {
    if s != [] && !(pattern <= s) {
      FirstPieceIsPrefix(s[1..], pattern);
    }
  }
}
