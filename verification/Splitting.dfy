/** Cutting a sequence at a separator, as Python's `split` does, and putting the pieces together. */
module Splitting {
  import opened Strings

  function Find<T(==)>(s: seq<T>, sep: T): (i: nat)
    ensures i <= |s| && sep !in s[..i] && (i < |s| ==> s[i] == sep)
  {
    if s == [] || s[0] == sep then 0
    else
      var i := Find(s[1..], sep);
      assert s[..i + 1] == [s[0]] + s[1..][..i];
      i + 1
  }

  /** The pieces between the separators: always one more than there are separators. */
  function Split<T(==)>(s: seq<T>, sep: T): (r: seq<seq<T>>)
    ensures |r| >= 1 && forall p :: p in r ==> sep !in p
    decreases |s|
  {
    var i := Find(s, sep);
    if i == |s| then [s] else [s[..i]] + Split(s[i + 1..], sep)
  }

  function Join<T>(ps: seq<seq<T>>, sep: T): seq<T> {
    if ps == [] then [] else if |ps| == 1 then ps[0] else ps[0] + [sep] + Join(ps[1..], sep)
  }

  lemma FindIs<T>(s: seq<T>, sep: T, i: nat)
    requires i <= |s| && sep !in s[..i] && (i < |s| ==> s[i] == sep)
    ensures Find(s, sep) == i
  {
    var j := Find(s, sep);
    assert forall k :: 0 <= k < i ==> s[k] in s[..i];
    assert forall k :: 0 <= k < j ==> s[k] in s[..j];
  }

  lemma {:induction false} SplitFirst<T>(p: seq<T>, sep: T, rest: seq<T>)
    requires sep !in p
    ensures Split(p + [sep] + rest, sep) == [p] + Split(rest, sep)
  {
    var s := p + [sep] + rest;
    assert s[..|p|] == p && s[|p|] == sep && s[|p| + 1..] == rest;
    FindIs(s, sep, |p|);
  }

  lemma {:induction false} SplitJoin<T>(ps: seq<seq<T>>, sep: T)
    requires ps != [] && forall p :: p in ps ==> sep !in p
    ensures Split(Join(ps, sep), sep) == ps
  {
    if |ps| == 1 {
      assert ps[0][..|ps[0]|] == ps[0];
      FindIs(ps[0], sep, |ps[0]|);
      assert ps == [ps[0]];
    } else {
      SplitJoin(ps[1..], sep);
      SplitFirst(ps[0], sep, Join(ps[1..], sep));
      assert ps == [ps[0]] + ps[1..];
    }
  }

  lemma OnePiece<T>(s: seq<T>, sep: T)
    requires sep !in s
    ensures Split(s, sep) == [s]
  {
    FindIs(s, sep, |s|);
  }

  lemma {:induction false} JoinSplit<T>(s: seq<T>, sep: T)
    ensures Join(Split(s, sep), sep) == s
    decreases |s|
  {
    hide Split;
    var i := Find(s, sep);
    if i == |s| {
      OnePiece(s, sep);
    } else {
      var first, rest := s[..i], s[i + 1..];
      JoinSplit(rest, sep);
      assert s == first + [sep] + rest;
      SplitFirst(first, sep, rest);
      assert ([first] + Split(rest, sep))[1..] == Split(rest, sep);
    }
  }
}
