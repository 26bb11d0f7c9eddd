/** The one-edit neighbourhood of a name is the names at Levenshtein distance 1. */
module OneEdit {

  const ALPHABET: string := "abcdefghijklmnopqrstuvwxyz0123456789-."

  predicate Over(s: string) {
    forall c :: c in s ==> c in ALPHABET
  }

  function Min(a: nat, b: nat): nat {
    if a < b then a else b
  }

  /** The textbook recurrence: one deletion, one insertion, or the heads matched or substituted. */
  function Distance(a: string, b: string): nat
    decreases |a| + |b|
  {
    if a == [] then |b|
    else if b == [] then |a|
    else Min(Min(Distance(a[1..], b) + 1, Distance(a, b[1..]) + 1),
             Distance(a[1..], b[1..]) + if a[0] == b[0] then 0 else 1)
  }

  lemma {:induction false} DistanceZero(a: string, b: string)
    ensures Distance(a, b) == 0 <==> a == b
    decreases |a| + |b|
  {
    if a != [] && b != [] {
      DistanceZero(a[1..], b[1..]);
      assert a == [a[0]] + a[1..] && b == [b[0]] + b[1..];
    }
  }

  lemma {:induction false} DistanceSymmetric(a: string, b: string)
    ensures Distance(a, b) == Distance(b, a)
    decreases |a| + |b|
  {
    if a != [] && b != [] {
      DistanceSymmetric(a[1..], b);
      DistanceSymmetric(a, b[1..]);
      DistanceSymmetric(a[1..], b[1..]);
    }
  }

  // ------------------------------------------------------------------ one edit, by place

  function Deleted(n: string, i: nat): string
    requires i < |n|
  {
    n[..i] + n[i + 1..]
  }

  function Substituted(n: string, i: nat, c: char): string
    requires i < |n|
  {
    n[..i] + [c] + n[i + 1..]
  }

  function Inserted(n: string, i: nat, c: char): string
    requires i <= |n|
  {
    n[..i] + [c] + n[i..]
  }

  ghost predicate DeletesAt(n: string, v: string, i: nat) {
    i < |n| && v == Deleted(n, i)
  }

  ghost predicate SubstitutesAt(n: string, v: string, i: nat, c: char) {
    i < |n| && c in ALPHABET && c != n[i] && v == Substituted(n, i, c)
  }

  ghost predicate InsertsAt(n: string, v: string, i: nat, c: char) {
    i <= |n| && c in ALPHABET && v == Inserted(n, i, c)
  }

  ghost predicate Edit(n: string, v: string) {
    || (exists i: nat :: DeletesAt(n, v, i))
    || (exists i: nat, c :: SubstitutesAt(n, v, i, c))
    || (exists i: nat, c :: InsertsAt(n, v, i, c))
  }

  lemma DeletionBehind(x: char, n: string, v: string, i: nat)
    requires DeletesAt(n, v, i)
    ensures DeletesAt([x] + n, [x] + v, i + 1)
  {
    var n' := [x] + n;
    assert n'[..i + 1] == [x] + n[..i] && n'[i + 2..] == n[i + 1..];
    assert [x] + v == Deleted(n', i + 1);
  }

  lemma SubstitutionBehind(x: char, n: string, v: string, i: nat, c: char)
    requires SubstitutesAt(n, v, i, c)
    ensures SubstitutesAt([x] + n, [x] + v, i + 1, c)
  {
    var n' := [x] + n;
    assert n'[..i + 1] == [x] + n[..i] && n'[i + 2..] == n[i + 1..];
    assert [x] + v == Substituted(n', i + 1, c);
  }

  lemma InsertionBehind(x: char, n: string, v: string, i: nat, c: char)
    requires InsertsAt(n, v, i, c)
    ensures InsertsAt([x] + n, [x] + v, i + 1, c)
  {
    var n' := [x] + n;
    assert n'[..i + 1] == [x] + n[..i] && n'[i + 1..] == n[i..];
    assert [x] + v == Inserted(n', i + 1, c);
  }

  /** An edit behind a common first character is an edit. */
  lemma EditBehind(x: char, n: string, v: string)
    requires Edit(n, v)
    ensures Edit([x] + n, [x] + v)
  {
    hide DeletesAt, SubstitutesAt, InsertsAt;
    if i: nat :| DeletesAt(n, v, i) {
      DeletionBehind(x, n, v, i);
    } else if i: nat, c :| SubstitutesAt(n, v, i, c) {
      SubstitutionBehind(x, n, v, i, c);
    } else {
      var i: nat, c :| InsertsAt(n, v, i, c);
      InsertionBehind(x, n, v, i, c);
    }
  }

  /** Names at distance 1: one is the other without its head, or the heads are equal and the rest at distance 1, or
      only the heads differ. */
  lemma HeadsOfNear(n: string, v: string)
    requires Distance(n, v) == 1 && n != [] && v != []
    ensures n[1..] == v || n == v[1..] || (if n[0] == v[0] then Distance(n[1..], v[1..]) == 1 else n[1..] == v[1..])
  {
    DistanceZero(n[1..], v);
    DistanceZero(n, v[1..]);
    DistanceZero(n[1..], v[1..]);
    assert n == [n[0]] + n[1..] && v == [v[0]] + v[1..];
  }

  lemma NearNothing(n: string, v: string)
    requires Distance(n, v) == 1 && (n == [] || v == []) && Over(v)
    ensures Edit(n, v)
  {
    if n == [] {
      assert v == Inserted(n, 0, v[0]);
      assert InsertsAt(n, v, 0, v[0]);
    } else {
      assert v == Deleted(n, 0);
      assert DeletesAt(n, v, 0);
    }
  }

  lemma HeadDropped(n: string, v: string)
    requires n != [] && v != [] && Over(v) && (n[1..] == v || n == v[1..] || (n[1..] == v[1..] && n[0] != v[0]))
    ensures Edit(n, v)
  {
    assert n == [n[0]] + n[1..] && v == [v[0]] + v[1..];
    if n[1..] == v {
      assert v == Deleted(n, 0);
      assert DeletesAt(n, v, 0);
    } else if n == v[1..] {
      assert v == Inserted(n, 0, v[0]);
      assert InsertsAt(n, v, 0, v[0]);
    } else {
      assert v == Substituted(n, 0, v[0]);
      assert SubstitutesAt(n, v, 0, v[0]);
    }
  }

  /** A name over the alphabet at distance 1 is one edit away. */
  lemma {:induction false} NearIsEdit(n: string, v: string)
    requires Distance(n, v) == 1 && Over(v)
    ensures Edit(n, v)
    decreases |n| + |v|
  {
    hide Distance, Edit;
    if n == [] || v == [] {
      NearNothing(n, v);
    } else {
      HeadsOfNear(n, v);
      if n[1..] == v || n == v[1..] || n[0] != v[0] {
        HeadDropped(n, v);
      } else {
        assert n == [n[0]] + n[1..] && v == [v[0]] + v[1..];
        NearIsEdit(n[1..], v[1..]);
        EditBehind(n[0], n[1..], v[1..]);
      }
    }
  }

  /** Two names that agree behind their heads, or after dropping one, are at distance at most 1. */
  lemma HeadEdits(a: string, b: string)
    ensures a != [] && a[1..] == b ==> Distance(a, b) <= 1
    ensures b != [] && a == b[1..] ==> Distance(a, b) <= 1
    ensures a != [] && b != [] && a[1..] == b[1..] ==> Distance(a, b) <= 1
  {
    DistanceZero(a, a);
    DistanceZero(b, b);
    if a != [] { DistanceZero(a[1..], a[1..]); }
  }

  lemma {:induction false} CommonPrefix(p: string, a: string, b: string)
    ensures Distance(p + a, p + b) <= Distance(a, b)
  {
    if p == [] {
      assert p + a == a && p + b == b;
    } else {
      assert (p + a)[1..] == p[1..] + a && (p + b)[1..] == p[1..] + b;
      CommonPrefix(p[1..], a, b);
    }
  }

  lemma DeletionIsNear(n: string, v: string, i: nat)
    requires DeletesAt(n, v, i)
    ensures Distance(n, v) <= 1
  {
    HeadEdits(n[i..], n[i + 1..]);
    assert n == n[..i] + n[i..];
    CommonPrefix(n[..i], n[i..], n[i + 1..]);
  }

  lemma SubstitutionIsNear(n: string, v: string, i: nat, c: char)
    requires SubstitutesAt(n, v, i, c)
    ensures Distance(n, v) <= 1 && v != n
  {
    HeadEdits(n[i..], [c] + n[i + 1..]);
    assert n == n[..i] + n[i..] && v == n[..i] + ([c] + n[i + 1..]);
    CommonPrefix(n[..i], n[i..], [c] + n[i + 1..]);
    assert v[i] == c;
  }

  lemma InsertionIsNear(n: string, v: string, i: nat, c: char)
    requires InsertsAt(n, v, i, c)
    ensures Distance(n, v) <= 1
  {
    HeadEdits(n[i..], [c] + n[i..]);
    assert n == n[..i] + n[i..] && v == n[..i] + ([c] + n[i..]);
    CommonPrefix(n[..i], n[i..], [c] + n[i..]);
  }

  lemma EditIsNear(n: string, v: string)
    requires Edit(n, v)
    ensures Distance(n, v) == 1
  {
    DistanceZero(n, v);
    if i: nat :| DeletesAt(n, v, i) {
      DeletionIsNear(n, v, i);
    } else if i: nat, c :| SubstitutesAt(n, v, i, c) {
      SubstitutionIsNear(n, v, i, c);
    } else {
      var i: nat, c :| InsertsAt(n, v, i, c);
      InsertionIsNear(n, v, i, c);
    }
  }

  /** A name over the alphabet is one edit away exactly at Levenshtein distance 1, so two such names are
      each other's variants or neither's. */
  lemma EditExact(n: string, v: string)
    requires Over(v)
    ensures Edit(n, v) <==> Distance(n, v) == 1
    ensures Over(n) ==> (Edit(n, v) <==> Edit(v, n))
  {
    DistanceSymmetric(n, v);
    if Edit(n, v) { EditIsNear(n, v); }
    if Edit(v, n) { EditIsNear(v, n); }
    if Distance(n, v) == 1 {
      NearIsEdit(n, v);
      if Over(n) { NearIsEdit(v, n); }
    }
  }

  // ------------------------------------------------------------------ the neighbourhood

  /** The names one deletion or substitution at place i makes. */
  ghost predicate ChangedBefore(n: string, v: string, i: nat) {
    || (exists j: nat :: j < i && DeletesAt(n, v, j))
    || (exists j: nat, c :: j < i && SubstitutesAt(n, v, j, c))
  }

  ghost predicate InsertedBefore(n: string, v: string, i: nat) {
    exists j: nat, c :: j < i && InsertsAt(n, v, j, c)
  }

  function ChangesAt(n: string, i: nat): (r: set<string>)
    requires i < |n|
    ensures forall v :: v in r <==> DeletesAt(n, v, i) || exists c :: SubstitutesAt(n, v, i, c)
  {
    var subs := set c | c in ALPHABET && c != n[i] :: n[..i] + [c] + n[i + 1..];
    assert forall c :: c in ALPHABET && c != n[i] ==> SubstitutesAt(n, n[..i] + [c] + n[i + 1..], i, c);
    {n[..i] + n[i + 1..]} + subs
  }

  function InsertionsAt(n: string, i: nat): (r: set<string>)
    requires i <= |n|
    ensures forall v :: v in r <==> exists c :: InsertsAt(n, v, i, c)
  {
    assert forall c :: c in ALPHABET ==> InsertsAt(n, n[..i] + [c] + n[i..], i, c);
    set c | c in ALPHABET :: n[..i] + [c] + n[i..]
  }

  lemma NextChange(n: string, i: nat)
    requires i < |n|
    ensures forall v :: ChangedBefore(n, v, i + 1) <==> ChangedBefore(n, v, i) || v in ChangesAt(n, i)
  {
  }

  lemma NextInsertion(n: string, i: nat)
    requires i <= |n|
    ensures forall v :: InsertedBefore(n, v, i + 1) <==> InsertedBefore(n, v, i) || v in InsertionsAt(n, i)
  {
  }

  lemma AllPlaces(n: string, v: string)
    ensures Edit(n, v) <==> ChangedBefore(n, v, |n|) || InsertedBefore(n, v, |n| + 1)
  {
  }

  /** The set gathered place by place is exactly the names related to this one by `Edit`. */
  method OneEditVariants(name: string) returns (out: set<string>)
    ensures forall v :: v in out <==> Edit(name, v)
  {
    hide ChangedBefore, InsertedBefore, Edit, ChangesAt, InsertionsAt;
    NoChange(name);
    out := {};
    for i := 0 to |name|
      invariant forall v :: v in out <==> ChangedBefore(name, v, i)
    {
      NextChange(name, i);
      out := out + ChangesAt(name, i);
    }
    for i := 0 to |name| + 1
      invariant forall v :: v in out <==> ChangedBefore(name, v, |name|) || InsertedBefore(name, v, i)
    {
      NextInsertion(name, i);
      out := out + InsertionsAt(name, i);
    }
    forall v ensures v in out <==> Edit(name, v) {
      AllPlaces(name, v);
    }
  }

  lemma NoChange(n: string)
    ensures forall v :: !ChangedBefore(n, v, 0) && !InsertedBefore(n, v, 0)
  {
  }

  // ------------------------------------------------------------------ the typo bound

  /** How many sampled names the report counts as near a known one, asking only about their variants. */
  method TypoBound(sample: seq<string>, names: set<string>, known: set<string>) returns (near: nat)
    ensures near == |Near(sample, known)|
  {
    var variants: set<string> := {};
    for i := 0 to |sample|
      invariant forall v :: v in variants <==> exists j :: 0 <= j < i && Edit(sample[j], v)
    {
      var vs := OneEditVariants(sample[i]);
      variants := variants + vs;
    }
    var found := known * (variants + names);
    var nearKnown := found * variants;
    near := 0;
    for i := 0 to |sample|
      invariant near == |Near(sample[..i], known)|
    {
      var vs := OneEditVariants(sample[i]);
      assert sample[..i + 1][..i] == sample[..i];
      NearExact(sample[i], vs, variants, known, nearKnown);
      if !(nearKnown !! vs) { near := near + 1; }
    }
    assert sample[..|sample|] == sample;
  }

  ghost predicate NearKnown(d: string, known: set<string>) {
    exists k :: k in known && Edit(d, k)
  }

  /** The sampled names one edit from a known name. */
  ghost function Near(sample: seq<string>, known: set<string>): seq<string> {
    if sample == [] then []
    else
      var d := sample[|sample| - 1];
      Near(sample[..|sample| - 1], known) + if NearKnown(d, known) then [d] else []
  }

  /** The name at this place of the sample is one edit from a known one. */
  ghost predicate NearAt(sample: seq<string>, known: set<string>, i: int) {
    0 <= i < |sample| && exists k :: k in known && Edit(sample[i], k)
  }

  /** The number counted is that of such places. */
  lemma {:induction false} NearCounted(sample: seq<string>, known: set<string>)
    ensures |Near(sample, known)| == |set i | 0 <= i < |sample| && NearAt(sample, known, i)|
  {
    hide Edit;
    if sample != [] {
      var front, last := sample[..|sample| - 1], |sample| - 1;
      NearCounted(front, known);
      var before := set i | 0 <= i < |front| && NearAt(front, known, i);
      var all := set i | 0 <= i < |sample| && NearAt(sample, known, i);
      assert all == before + if NearKnown(sample[last], known) then {last} else {};
    }
  }

  lemma NearExact(d: string, vs: set<string>, variants: set<string>, known: set<string>, nearKnown: set<string>)
    requires forall v :: v in vs <==> Edit(d, v)
    requires vs <= variants && known * variants == nearKnown
    ensures !(nearKnown !! vs) <==> NearKnown(d, known)
  {
    if k :| k in known && Edit(d, k) {
      assert k in nearKnown && k in vs;
    }
  }

  /** When the known names are over the alphabet, as hostnames are, a sampled name is counted exactly when
      some known name lies at Levenshtein distance 1. */
  lemma NearIsDistance(d: string, known: set<string>)
    requires forall k :: k in known ==> Over(k)
    ensures NearKnown(d, known) <==> exists k :: k in known && Distance(d, k) == 1
  {
    forall k | k in known ensures Edit(d, k) <==> Distance(d, k) == 1 {
      EditExact(d, k);
    }
  }
}
