/** Rebuilding a lane's done set from its log: one pass in ascending page size is the least fixed point. */
module WalkJobs {
  import opened Strings
  import opened CdxIndex
  import opened WalkState

  /** One answered request of `log.tsv`; the notes and torn lines between them are skipped on reading. */
  datatype Row = Row(key: Key, status: Status, complete: bool, rows: nat)

  // ------------------------------------------------------------------ what the log says

  /** The silences in a row at the end of this key's requests. */
  function Streak(log: seq<Row>, k: Key): nat {
    if log == [] then 0
    else
      var r := log[|log| - 1];
      if r.key != k then Streak(log[..|log| - 1], k)
      else if r.status == Http(504) then Streak(log[..|log| - 1], k) + 1
      else 0
  }

  /** The rows this key's answers brought. */
  function RowsOf(log: seq<Row>, k: Key): nat {
    if log == [] then 0
    else
      var r := log[|log| - 1];
      RowsOf(log[..|log| - 1], k) + if r.key == k && r.status.Ok? then r.rows else 0
  }

  /** Whether the last row of the log books its page by itself. */
  predicate Terminal(log: seq<Row>)
    requires log != []
  {
    var r := log[|log| - 1];
    (r.status.Ok? && r.complete) || (r.key.size < PAGE && (r.status == Http(400) || Streak(log, r.key) >= 4))
  }

  /** Whether the last row of the log leaves its page owing subpages. */
  predicate Owes(log: seq<Row>)
    requires log != []
  {
    var r := log[|log| - 1];
    !Terminal(log) && ((r.status.Ok? && r.rows > 0) || (r.status == Http(504) && r.key.size >= PAGE))
  }

  function Direct(log: seq<Row>): set<Key> {
    if log == [] then {}
    else Direct(log[..|log| - 1]) + if Terminal(log) then {log[|log| - 1].key} else {}
  }

  /** The pages owing subpages, each with the status that left it so last. */
  function Owing(log: seq<Row>): map<Key, Status> {
    if log == [] then map[]
    else
      var before := Owing(log[..|log| - 1]);
      if Owes(log) then before[log[|log| - 1].key := log[|log| - 1].status] else before
  }

  /** The subpages a page must see booked: its two probes while neither has rows, else all ten. */
  function Wanted(log: seq<Row>, k: Key): set<Key>
    requires k in Owing(log) && k.page.Number?
  {
    var probes := {Sub(k, 0), Sub(k, 5)};
    if !Owing(log)[k].Ok? && RowsOf(log, Sub(k, 0)) == 0 && RowsOf(log, Sub(k, 5)) == 0 then probes
    else set j | 0 <= j < 10 :: Sub(k, j)
  }

  /** One application of the booking rule. */
  function Rule(log: seq<Row>, booked: set<Key>): set<Key> {
    Direct(log) + set k | k in Owing(log) && k.page.Number? && Wanted(log, k) <= booked
  }

  ghost predicate LeastFixedPoint(log: seq<Row>, booked: set<Key>) {
    && Rule(log, booked) == booked
    && forall x: set<Key> :: Rule(log, x) <= x ==> booked <= x
  }

  // ------------------------------------------------------------------ ascending page size

  function Insert(k: Key, ks: seq<Key>): (r: seq<Key>)
    ensures multiset(r) == multiset(ks) + multiset{k}
  {
    if ks == [] || k.size < ks[0].size then
      assert [k] + ks == [k] + ks && multiset([k] + ks) == multiset{k} + multiset(ks);
      [k] + ks
    else
      assert ks == [ks[0]] + ks[1..];
      [ks[0]] + Insert(k, ks[1..])
  }

  /** `sorted` by page size: stable, so equals keep their order. */
  function Sorted(ks: seq<Key>): (r: seq<Key>)
    ensures multiset(r) == multiset(ks)
  {
    if ks == [] then []
    else
      assert ks == ks[..|ks| - 1] + [ks[|ks| - 1]];
      Insert(ks[|ks| - 1], Sorted(ks[..|ks| - 1]))
  }

  ghost predicate Ascending(ks: seq<Key>) {
    forall i, j :: 0 <= i < j < |ks| ==> ks[i].size <= ks[j].size
  }

  lemma {:induction false} InsertAscending(k: Key, ks: seq<Key>)
    requires Ascending(ks)
    ensures Ascending(Insert(k, ks))
  {
    if ks != [] && k.size >= ks[0].size {
      InsertAscending(k, ks[1..]);
      var rest := Insert(k, ks[1..]);
      forall j | 0 <= j < |rest| ensures ks[0].size <= rest[j].size {
        assert rest[j] in multiset(rest);
        assert rest[j] == k || rest[j] in ks[1..];
      }
    }
  }

  lemma {:induction false} SortedAscending(ks: seq<Key>)
    ensures Ascending(Sorted(ks))
  {
    if ks != [] {
      SortedAscending(ks[..|ks| - 1]);
      InsertAscending(ks[|ks| - 1], Sorted(ks[..|ks| - 1]));
    }
  }

  // ------------------------------------------------------------------ the pass

  lemma NoRows()
    ensures Direct([]) == {} && Owing([]) == map[] && forall k :: RowsOf([], k) == 0 && Streak([], k) == 0
  {
  }

  /** What one more row changes. */
  lemma RowTaken(log: seq<Row>, i: nat)
    requires i < |log|
    ensures var r, was, now := log[i], log[..i], log[..i + 1];
      && (forall k :: Streak(now, k) ==
            if k != r.key then Streak(was, k) else if r.status == Http(504) then Streak(was, k) + 1 else 0)
      && (forall k :: RowsOf(now, k) == RowsOf(was, k) + if r.key == k && r.status.Ok? then r.rows else 0)
      && now != [] && now[|now| - 1] == r
      && Direct(now) == Direct(was) + (if Terminal(now) then {r.key} else {})
      && Owing(now) == if Owes(now) then Owing(was)[r.key := r.status] else Owing(was)
  {
    var now := log[..i + 1];
    assert now[..|now| - 1] == log[..i];
    hide Terminal, Owes;
  }

  /** Read the log, then book the owing pages finest first. It raises when a question, whose page is no
      number, is among them. */
  method Done(log: seq<Row>) returns (raised: bool, booked: set<Key>)
    requires forall r :: r in log ==> r.key.size > 0
    ensures raised <==> exists k :: k in Owing(log) && k.page.Question?
    ensures !raised ==> LeastFixedPoint(log, booked)
    ensures booked <= Direct(log) + Owing(log).Keys
  {
    hide Streak, RowsOf, Direct, Owing, LeastFixedPoint;
    booked := {};
    NoRows();
    assert log[..0] == [];
    var owing: map<Key, Status>, order: seq<Key> := map[], [];
    var rows: map<Key, nat>, streak: map<Key, nat> := map[], map[];
    var i := 0;
    while i < |log|
      invariant 0 <= i <= |log|
      invariant booked == Direct(log[..i]) && owing == Owing(log[..i])
      invariant forall k :: k in owing <==> k in order
      invariant forall k :: (if k in rows then rows[k] else 0) == RowsOf(log[..i], k)
      invariant forall k :: (if k in streak then streak[k] else 0) == Streak(log[..i], k)
    {
      var r := log[i];
      RowTaken(log, i);
      var k := r.key;
      streak := streak[k := if r.status == Http(504) then (if k in streak then streak[k] else 0) + 1 else 0];
      rows := rows[k := (if k in rows then rows[k] else 0) + if r.status.Ok? then r.rows else 0];
      assert streak[k] == Streak(log[..i + 1], k);
      assert log[..i + 1][|log[..i + 1]| - 1] == r;
      if (r.status.Ok? && r.complete) || (k.size < PAGE && (r.status == Http(400) || streak[k] >= 4)) {
        booked := booked + {k};
      } else if (r.status.Ok? && r.rows > 0) || (r.status == Http(504) && k.size >= PAGE) {
        if k !in owing { order := order + [k]; }
        owing := owing[k := r.status];
      }
      i := i + 1;
    }
    assert log[..i] == log;
    raised, booked := BookOwing(log, booked, owing, order, rows);
  }

  lemma SortedMembers(ks: seq<Key>)
    ensures forall k :: k in Sorted(ks) <==> k in ks
  {
    assert forall k :: k in Sorted(ks) <==> k in multiset(Sorted(ks));
    assert forall k :: k in ks <==> k in multiset(ks);
  }

  lemma PassNone(log: seq<Row>)
    ensures Pass(log, []) == Direct(log)
  {
  }

  lemma PassTurn(log: seq<Row>, ks: seq<Key>, i: nat)
    requires i < |ks| && ks[i] in Owing(log) && ks[i].page.Number?
    ensures Pass(log, ks[..i + 1]) ==
            Pass(log, ks[..i]) + if Wanted(log, ks[i]) <= Pass(log, ks[..i]) then {ks[i]} else {}
  {
    assert ks[..i + 1][..i] == ks[..i];
  }

  method WantedBy(ghost log: seq<Row>, owing: map<Key, Status>, rows: map<Key, nat>, k: Key) returns (wanted: set<Key>)
    requires owing == Owing(log) && k in owing && k.page.Number?
    requires forall k :: (if k in rows then rows[k] else 0) == RowsOf(log, k)
    ensures wanted == Wanted(log, k)
  {
    var p0, p5 := Sub(k, 0), Sub(k, 5);
    var any := (p0 in rows && rows[p0] > 0) || (p5 in rows && rows[p5] > 0);
    assert (if p0 in rows then rows[p0] else 0) == RowsOf(log, p0);
    assert (if p5 in rows then rows[p5] else 0) == RowsOf(log, p5);
    wanted := if !owing[k].Ok? && !any then {p0, p5} else set j | 0 <= j < 10 :: Sub(k, j);
  }

  /** The second pass. */
  method BookOwing(log: seq<Row>, direct: set<Key>, owing: map<Key, Status>, order: seq<Key>, rows: map<Key, nat>)
    returns (raised: bool, booked: set<Key>)
    requires forall r :: r in log ==> r.key.size > 0
    requires direct == Direct(log) && owing == Owing(log)
    requires forall k :: k in owing <==> k in order
    requires forall k :: (if k in rows then rows[k] else 0) == RowsOf(log, k)
    ensures raised <==> exists k :: k in Owing(log) && k.page.Question?
    ensures !raised ==> LeastFixedPoint(log, booked)
    ensures booked <= Direct(log) + Owing(log).Keys
  {
    hide LeastFixedPoint, Direct, Owing, Ascending, Sorted, Pass, Wanted, RowsOf;
    booked, raised := direct, false;
    var ks := Sorted(order);
    PassNone(log);
    SortedAscending(order);
    SortedMembers(order);
    OwingSized(log);
    var i := 0;
    while i < |ks|
      invariant 0 <= i <= |ks|
      invariant forall k :: k in ks[..i] ==> k.page.Number?
      invariant booked == Pass(log, ks[..i])
    {
      var k := ks[i];
      if k.page.Question? { assert k in ks; return true, booked; }
      var wanted := WantedBy(log, owing, rows, k);
      PassTurn(log, ks, i);
      if wanted <= booked { booked := booked + {k}; }
      i := i + 1;
    }
    assert ks[..i] == ks;
    PassLeast(log, ks);
  }

  /** The pass over the owing pages in a given order. */
  ghost function Pass(log: seq<Row>, ks: seq<Key>): (r: set<Key>)
    ensures Direct(log) <= r <= Direct(log) + set k | k in ks
  {
    if ks == [] then Direct(log)
    else
      var k, before := ks[|ks| - 1], Pass(log, ks[..|ks| - 1]);
      if k in Owing(log) && k.page.Number? && Wanted(log, k) <= before then before + {k} else before
  }

  // ------------------------------------------------------------------ why one pass is enough

  lemma {:induction false} OwingSized(log: seq<Row>)
    requires forall r :: r in log ==> r.key.size > 0
    ensures forall k :: k in Owing(log) ==> k.size > 0
  {
    if log != [] {
      OwingSized(log[..|log| - 1]);
      assert log[|log| - 1] in log;
    }
  }

  lemma PassLast(log: seq<Row>, ks: seq<Key>)
    requires ks != []
    ensures var front := ks[..|ks| - 1];
      Pass(log, front) <= Pass(log, ks) <= Pass(log, front) + {ks[|ks| - 1]}
  {
    hide Wanted;
  }

  function KeysFrom(ks: seq<Key>, i: nat): set<Key>
    requires i <= |ks|
  {
    set k | k in ks[i..]
  }

  lemma KeysFromLast(ks: seq<Key>, i: nat)
    requires i < |ks|
    ensures KeysFrom(ks, i) == KeysFrom(ks[..|ks| - 1], i) + {ks[|ks| - 1]}
  {
    assert ks[i..] == ks[..|ks| - 1][i..] + [ks[|ks| - 1]];
  }

  /** What the pass books after place i it books from there on. */
  lemma {:induction false} PassGrows(log: seq<Row>, ks: seq<Key>, i: nat)
    requires i <= |ks|
    ensures Pass(log, ks[..i]) <= Pass(log, ks) <= Pass(log, ks[..i]) + KeysFrom(ks, i)
    decreases |ks|
  {
    hide Pass, KeysFrom;
    if i == |ks| {
      assert ks[..i] == ks;
    } else {
      var front := ks[..|ks| - 1];
      PassGrows(log, front, i);
      PassLast(log, ks);
      KeysFromLast(ks, i);
      assert front[..i] == ks[..i];
    }
  }

  lemma LaterLarger(ks: seq<Key>, i: nat, c: Key)
    requires Ascending(ks) && i < |ks| && c in ks[i..]
    ensures ks[i].size <= c.size
  {
    var j :| 0 <= j < |ks[i..]| && ks[i..][j] == c;
    assert ks[i + j] == c;
  }

  lemma WantedSmaller(log: seq<Row>, k: Key, c: Key)
    requires k in Owing(log) && k.page.Number? && k.size > 0 && c in Wanted(log, k)
    ensures c.size < k.size
  {
    assert c.size == k.size / 10;
  }

  lemma PassNext(log: seq<Row>, ks: seq<Key>, i: nat)
    requires i < |ks| && ks[i] in Owing(log) && ks[i].page.Number? && Wanted(log, ks[i]) <= Pass(log, ks[..i])
    ensures ks[i] in Pass(log, ks)
  {
    assert ks[..i + 1][..i] == ks[..i];
    assert ks[i] in Pass(log, ks[..i + 1]);
    PassGrows(log, ks, i + 1);
  }

  /** A page the rule books was booked in its turn: its subpages are smaller, so they came before it. */
  lemma PassClosed(log: seq<Row>, ks: seq<Key>, k: Key)
    requires Ascending(ks) && k in ks && k in Owing(log) && k.page.Number? && k.size > 0
    requires Wanted(log, k) <= Pass(log, ks)
    ensures k in Pass(log, ks)
  {
    var i :| 0 <= i < |ks| && ks[i] == k;
    PassGrows(log, ks, i);
    forall c | c in Wanted(log, k) ensures c in Pass(log, ks[..i]) {
      WantedSmaller(log, k, c);
      if c in KeysFrom(ks, i) { LaterLarger(ks, i, c); }
    }
    PassNext(log, ks, i);
  }

  lemma {:induction false} PassSound(log: seq<Row>, ks: seq<Key>)
    ensures Pass(log, ks) <= Rule(log, Pass(log, ks))
  {
    if ks != [] {
      PassSound(log, ks[..|ks| - 1]);
    }
  }

  lemma {:induction false} PassBelow(log: seq<Row>, ks: seq<Key>, x: set<Key>)
    requires Rule(log, x) <= x
    ensures Pass(log, ks) <= x
  {
    if ks != [] {
      PassBelow(log, ks[..|ks| - 1], x);
    }
  }

  lemma PassLeast(log: seq<Row>, ks: seq<Key>)
    requires Ascending(ks) && forall k :: k in ks <==> k in Owing(log)
    requires forall k :: k in Owing(log) ==> k.page.Number? && k.size > 0
    ensures LeastFixedPoint(log, Pass(log, ks))
  {
    var b := Pass(log, ks);
    PassSound(log, ks);
    forall k | k in Rule(log, b) ensures k in b {
      if k !in Direct(log) { PassClosed(log, ks, k); }
    }
    forall x: set<Key> | Rule(log, x) <= x ensures b <= x {
      PassBelow(log, ks, x);
    }
  }
}