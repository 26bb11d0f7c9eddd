/** Which task is asked next, and what a new process starts with: the orders of the queues, by position. */
module WalkTakes {
  import opened Strings
  import opened CdxIndex
  import opened WalkState
  import opened WalkSystem

  // ------------------------------------------------------------------ take

  /** The first of the units that has a page left. */
  predicate FirstPage(m: Mem, units: seq<Unit>, i: nat) {
    && i < |units| && (forall l :: 0 <= l <= i ==> units[l] in m.pages)
    && m.pages[units[i]] != [] && forall l :: 0 <= l < i ==> m.pages[units[l]] == []
  }

  /** Its head moves into flight and counts as asked, and nothing else changes. */
  predicate PageTaken(m: Mem, u: Unit, m': Mem, t: Option<Task>)
    requires u in m.pages && u in m.asked && m.pages[u] != []
  {
    && t == Some(m.pages[u][0]) && m'.inflight == m.inflight + {m.pages[u][0]}
    && m'.pages == m.pages[u := m.pages[u][1..]] && m'.asked == m.asked[u := m.asked[u] + 1]
    && m' == m.(inflight := m'.inflight, pages := m'.pages, asked := m'.asked)
  }

  /** The first owed subpage that was not booked meanwhile. */
  predicate FirstOwed(m: Mem, j: nat) {
    j < |m.subq| && KeyOf(m.subq[j]) !in m.done && forall l :: 0 <= l < j ==> KeyOf(m.subq[l]) in m.done
  }

  function Of(ts: seq<Task>): set<Task> {
    set t | t in ts
  }

  /** The first `n` owed subpages are forgotten. */
  function Without(m: Mem, n: nat): Mem
    requires n <= |m.subq|
  {
    m.(subq := m.subq[n..], meta := m.meta - Of(m.subq[..n]))
  }

  predicate OwedTaken(m: Mem, j: nat, m': Mem, t: Option<Task>)
    requires j < |m.subq|
  {
    t == Some(m.subq[j]) && m' == Without(m, j).(subq := m.subq[j + 1..], inflight := m.inflight + {m.subq[j]})
  }

  ghost predicate PagedOrNot(m: Mem, units: seq<Unit>, m': Mem, t: Option<Task>)
    requires m.asked.Keys == m.pages.Keys
  {
    if exists i: nat :: FirstPage(m, units, i) then
      exists i: nat :: FirstPage(m, units, i) && PageTaken(m, units[i], m', t)
    else m' == m && t.None?
  }

  lemma {:induction false} PopExactly(m: Mem, units: seq<Unit>)
    requires m.asked.Keys == m.pages.Keys && forall u :: u in units ==> u in m.pages
    ensures PagedOrNot(m, units, Pop(m, units).0, Pop(m, units).1)
  {
    if units != [] && m.pages[units[0]] == [] {
      var rest := units[1..];
      PopExactly(m, rest);
      if i: nat :| FirstPage(m, rest, i) {
        OneFirst(m, rest, i);
        assert FirstPage(m, units, i + 1);
      } else if i: nat :| FirstPage(m, units, i) {
        assert FirstPage(m, rest, i - 1);
      }
    } else if units != [] {
      assert FirstPage(m, units, 0);
    }
  }

  lemma OneFirst(m: Mem, units: seq<Unit>, i: nat)
    requires FirstPage(m, units, i)
    ensures forall l: nat :: FirstPage(m, units, l) ==> l == i
  {}

  ghost predicate OwedOrNot(m: Mem, m': Mem, t: Option<Task>) {
    if exists j: nat :: FirstOwed(m, j) then exists j: nat :: FirstOwed(m, j) && OwedTaken(m, j, m', t)
    else m' == Without(m, |m.subq|) && t.None?
  }

  lemma WithoutMore(m: Mem, n: nat)
    requires n < |m.subq|
    ensures Without(m.(subq := m.subq[1..], meta := m.meta - {m.subq[0]}), n) == Without(m, n + 1)
  {
    var first, rest := m.subq[0], m.subq[1..];
    assert m.subq[..n + 1] == [first] + rest[..n];
    assert rest[n..] == m.subq[n + 1..];
    assert Of(m.subq[..n + 1]) == {first} + Of(rest[..n]);
    assert (m.meta - {first}) - Of(rest[..n]) == m.meta - Of(m.subq[..n + 1]);
  }

  lemma {:induction false} TakeSubExactly(m: Mem)
    ensures OwedOrNot(m, TakeSub(m).0, TakeSub(m).1)
    decreases |m.subq|
  {
    if m.subq == [] {
      assert Without(m, 0) == m;
    } else if KeyOf(m.subq[0]) in m.done {
      var m1 := m.(subq := m.subq[1..], meta := m.meta - {m.subq[0]});
      TakeSubExactly(m1);
      assert TakeSub(m) == TakeSub(m1);
      OneBooked(m, m1, TakeSub(m).0, TakeSub(m).1);
    } else {
      assert FirstOwed(m, 0) && Without(m, 0) == m;
    }
  }

  lemma NextOwed(m: Mem, m1: Mem, j: nat)
    requires m.subq != [] && KeyOf(m.subq[0]) in m.done && m1.subq == m.subq[1..] && m1.done == m.done
    requires FirstOwed(m, j)
    ensures j > 0 && FirstOwed(m1, j - 1)
  {}

  lemma OneBooked(m: Mem, m1: Mem, m': Mem, t: Option<Task>)
    requires m.subq != [] && KeyOf(m.subq[0]) in m.done && m1 == m.(subq := m.subq[1..], meta := m.meta - {m.subq[0]})
    requires OwedOrNot(m1, m', t)
    ensures OwedOrNot(m, m', t)
  {
    hide Without;
    if j: nat :| FirstOwed(m1, j) && OwedTaken(m1, j, m', t) {
      WithoutMore(m, j);
      assert m.subq[j + 2..] == m1.subq[j + 1..];
      assert FirstOwed(m, j + 1) && OwedTaken(m, j + 1, m', t);
    } else {
      WithoutMore(m, |m1.subq|);
      forall j: nat ensures !FirstOwed(m, j) {
        if FirstOwed(m, j) { NextOwed(m, m1, j); }
      }
    }
  }

  /** A page of an early unit first, the first such unit with a page left. Then the first owed subpage that was not
      booked meanwhile, and what stood before it is forgotten. Then a page of the other units, by the same rule. */
  lemma TakenExactly(m: Mem, early: seq<Unit>, units: seq<Unit>)
    requires m.asked.Keys == m.pages.Keys && forall u :: u in early + units ==> u in m.pages
    ensures var (m', t) := Take(m, early, units);
            if exists i: nat :: FirstPage(m, early, i) then
              exists i: nat :: FirstPage(m, early, i) && PageTaken(m, early[i], m', t)
            else if exists j: nat :: FirstOwed(m, j) then
              exists j: nat :: FirstOwed(m, j) && OwedTaken(m, j, m', t)
            else PagedOrNot(Without(m, |m.subq|), units, m', t)
  {
    assert forall u :: u in early || u in units ==> u in early + units;
    PopExactly(m, early);
    TakeSubExactly(m);
    if !exists i: nat :: FirstPage(m, early, i) && !exists j: nat :: FirstOwed(m, j) {
      PopExactly(TakeSub(m).0, units);
    }
  }

  // ------------------------------------------------------------------ a new process

  /** `r` is the elements of `s` at these positions, in their order. */
  ghost predicate Picks<T>(s: seq<T>, at: seq<nat>, r: seq<T>) {
    && |at| == |r| && (forall k :: 0 <= k < |at| ==> at[k] < |s| && r[k] == s[at[k]])
    && forall k, l :: 0 <= k < l < |at| ==> at[k] < at[l]
  }

  /** The tasks of a unit that were not booked, in their order. */
  ghost predicate Unasked(tasks: seq<Task>, done: set<Key>, left: seq<Task>) {
    exists at: seq<nat> :: UnaskedAt(tasks, done, at, left)
  }

  function Up(at: seq<nat>): (r: seq<nat>)
    ensures |r| == |at| && forall k :: 0 <= k < |at| ==> r[k] == at[k] + 1
  {
    seq(|at|, k requires 0 <= k < |at| => at[k] + 1)
  }

  lemma UpHas(at: seq<nat>, i: nat)
    ensures i + 1 in Up(at) <==> i in at
    ensures 0 !in Up(at)
  {
    if i in at {
      var k :| 0 <= k < |at| && at[k] == i;
      assert Up(at)[k] == i + 1;
    }
  }

  ghost predicate UnaskedAt(tasks: seq<Task>, done: set<Key>, at: seq<nat>, left: seq<Task>) {
    && Picks(tasks, at, left) && (forall k :: 0 <= k < |left| ==> KeyOf(left[k]) !in done)
    && forall i :: 0 <= i < |tasks| && KeyOf(tasks[i]) !in done ==> i in at
  }

  lemma PicksMore<T>(x: T, s: seq<T>, at: seq<nat>, r: seq<T>)
    requires Picks(s, at, r)
    ensures Picks([x] + s, Up(at), r) && Picks([x] + s, [0] + Up(at), [x] + r)
  {}

  lemma UnaskedMore(x: Task, tasks: seq<Task>, done: set<Key>, at: seq<nat>, left: seq<Task>)
    requires UnaskedAt(tasks, done, at, left)
    ensures KeyOf(x) in done ==> UnaskedAt([x] + tasks, done, Up(at), left)
    ensures KeyOf(x) !in done ==> UnaskedAt([x] + tasks, done, [0] + Up(at), [x] + left)
  {
    hide Picks;
    PicksMore(x, tasks, at, left);
    forall i: nat | 0 < i < |[x] + tasks| && KeyOf(([x] + tasks)[i]) !in done ensures i in Up(at) && i in [0] + Up(at) {
      UpHas(at, i - 1);
      assert ([x] + tasks)[i] == tasks[i - 1];
    }
  }

  lemma UnaskedNext(x: Task, tasks: seq<Task>, done: set<Key>, left: seq<Task>)
    requires Unasked(tasks, done, left)
    ensures Unasked([x] + tasks, done, if KeyOf(x) in done then left else [x] + left)
  {
    hide UnaskedAt;
    var at: seq<nat> :| UnaskedAt(tasks, done, at, left);
    UnaskedMore(x, tasks, done, at, left);
  }

  lemma {:induction false} NotDoneExactly(tasks: seq<Task>, done: set<Key>)
    ensures Unasked(tasks, done, NotDone(tasks, done))
  {
    if tasks == [] {
      assert UnaskedAt(tasks, done, [], []);
    } else {
      hide Unasked;
      var x, rest := tasks[0], tasks[1..];
      NotDoneExactly(rest, done);
      var left := NotDone(rest, done);
      UnaskedNext(x, rest, done, left);
      assert tasks == [x] + rest;
      assert NotDone(tasks, done) == if KeyOf(x) in done then left else [x] + left;
    }
  }

  /** A line is read unless its slice is booked or an earlier line names its task. */
  predicate Reads(lines: seq<Owed>, done: set<Key>, i: nat)
    requires i < |lines|
  {
    KeyOf(lines[i].task) !in done && forall j :: 0 <= j < i ==> lines[j].task != lines[i].task
  }

  /** What is owed after the lines: their tasks in the order of the file, each with its own line's reason. */
  ghost predicate Loaded(lines: seq<Owed>, done: set<Key>, subq: seq<Task>, meta: map<Task, Meta>) {
    (exists at: seq<nat> :: LoadedAt(lines, done, at, subq)) && MetasRead(lines, done, meta)
  }

  ghost predicate MetasRead(lines: seq<Owed>, done: set<Key>, meta: map<Task, Meta>) {
    && (forall t :: t in meta ==> exists i :: 0 <= i < |lines| && Reads(lines, done, i) && lines[i].task == t)
    && forall i :: 0 <= i < |lines| && Reads(lines, done, i) ==>
         lines[i].task in meta && meta[lines[i].task] == lines[i].meta
  }

  ghost predicate LoadedAt(lines: seq<Owed>, done: set<Key>, at: seq<nat>, subq: seq<Task>) {
    && |at| == |subq| && (forall k :: 0 <= k < |at| ==> at[k] < |lines| && subq[k] == lines[at[k]].task)
    && (forall k, l :: 0 <= k < l < |at| ==> at[k] < at[l])
    && (forall k :: 0 <= k < |at| ==> Reads(lines, done, at[k]))
    && forall i :: 0 <= i < |lines| && Reads(lines, done, i) ==> i in at
  }

  lemma {:induction false} LoadLast(lines: seq<Owed>, x: Owed, done: set<Key>, m: Mem)
    ensures var r := LoadPending(lines, done, m);
            LoadPending(lines + [x], done, m) ==
            if KeyOf(x.task) in done || x.task in r.meta then r
            else r.(subq := r.subq + [x.task], meta := r.meta[x.task := x.meta])
  {
    var all := lines + [x];
    if lines == [] {
      assert all[1..] == [] && all[0] == x;
      assert LoadPending([], done, m) == m;
    } else {
      var Owed(task, meta) := lines[0];
      assert all[0] == lines[0] && all[1..] == lines[1..] + [x];
      var m1 := if KeyOf(task) !in done && task !in m.meta
                then m.(subq := m.subq + [task], meta := m.meta[task := meta]) else m;
      LoadLast(lines[1..], x, done, m1);
    }
  }

  lemma ReadsStay(lines: seq<Owed>, x: Owed, done: set<Key>)
    ensures forall i: nat :: i < |lines| ==> (Reads(lines + [x], done, i) <==> Reads(lines, done, i))
  {
    forall i: nat | i < |lines| ensures Reads(lines + [x], done, i) <==> Reads(lines, done, i) {
      assert forall j :: 0 <= j <= i ==> (lines + [x])[j] == lines[j];
    }
  }

  lemma LoadedMore(lines: seq<Owed>, x: Owed, done: set<Key>, at: seq<nat>, subq: seq<Task>)
    requires LoadedAt(lines, done, at, subq)
    ensures if Reads(lines + [x], done, |lines|) then LoadedAt(lines + [x], done, at + [|lines|], subq + [x.task])
            else LoadedAt(lines + [x], done, at, subq)
  {
    ReadsStay(lines, x, done);
    hide Reads;
    forall i | i in at ensures i in at + [|lines|] {}
    assert |lines| in at + [|lines|] by { assert (at + [|lines|])[|at|] == |lines|; }
  }

  lemma MetasMore(lines: seq<Owed>, x: Owed, done: set<Key>, meta: map<Task, Meta>)
    requires MetasRead(lines, done, meta)
    ensures if KeyOf(x.task) in done || x.task in meta then MetasRead(lines + [x], done, meta)
            else MetasRead(lines + [x], done, meta[x.task := x.meta])
  {
    var all := lines + [x];
    ReadsStay(lines, x, done);
    LastReads(lines, x, done, meta);
    hide Reads;
    assert all[|lines|] == x && forall i :: 0 <= i < |lines| ==> all[i] == lines[i];
    forall t | t in meta ensures exists i :: 0 <= i < |all| && Reads(all, done, i) && all[i].task == t {
      var i :| 0 <= i < |lines| && Reads(lines, done, i) && lines[i].task == t;
      assert Reads(all, done, i) && all[i].task == t;
    }
    if KeyOf(x.task) !in done && x.task !in meta {
      assert Reads(all, done, |lines|);
      assert forall i :: 0 <= i < |lines| && Reads(lines, done, i) ==> lines[i].task != x.task;
    }
  }

  /** One line more: read, it is owed last, and a line whose task is owed already changes nothing. */
  lemma LoadedNext(lines: seq<Owed>, x: Owed, done: set<Key>, subq: seq<Task>, meta: map<Task, Meta>)
    requires Loaded(lines, done, subq, meta)
    ensures if KeyOf(x.task) in done || x.task in meta then Loaded(lines + [x], done, subq, meta)
            else Loaded(lines + [x], done, subq + [x.task], meta[x.task := x.meta])
  {
    var at: seq<nat> :| LoadedAt(lines, done, at, subq);
    LoadedMore(lines, x, done, at, subq);
    LastReads(lines, x, done, meta);
    hide Reads, LoadedAt;
    MetasMore(lines, x, done, meta);
  }

  lemma LastReads(lines: seq<Owed>, x: Owed, done: set<Key>, meta: map<Task, Meta>)
    requires forall t :: t in meta ==> exists i :: 0 <= i < |lines| && Reads(lines, done, i) && lines[i].task == t
    requires forall i :: 0 <= i < |lines| && Reads(lines, done, i) ==> lines[i].task in meta
    ensures Reads(lines + [x], done, |lines|) <==> KeyOf(x.task) !in done && x.task !in meta
  {
    var all := lines + [x];
    assert forall i :: 0 <= i < |lines| ==> all[i] == lines[i];
    if x.task in meta {
      var i :| 0 <= i < |lines| && Reads(lines, done, i) && lines[i].task == x.task;
      assert all[i].task == x.task;
    } else if KeyOf(x.task) !in done && !Reads(all, done, |lines|) {
      var j :| 0 <= j < |lines| && all[j].task == x.task;
      assert lines[j].task == x.task;
      Earlier(lines, done, x.task);
    }
  }

  lemma {:induction false} LoadExactly(lines: seq<Owed>, done: set<Key>, m: Mem)
    requires m.subq == [] && m.meta == map[]
    ensures var r := LoadPending(lines, done, m); Loaded(lines, done, r.subq, r.meta)
  {
    if lines == [] {
      assert LoadedAt(lines, done, [], []);
    } else {
      var n := |lines| - 1;
      var init, x := lines[..n], lines[n];
      assert lines == init + [x];
      LoadExactly(init, done, m);
      LoadLast(init, x, done, m);
      var r := LoadPending(init, done, m);
      hide Loaded;
      LoadedNext(init, x, done, r.subq, r.meta);
    }
  }

  /** The first line that names a task is read if its slice is not booked. */
  lemma {:induction false} Earlier(lines: seq<Owed>, done: set<Key>, t: Task)
    requires KeyOf(t) !in done && exists i :: 0 <= i < |lines| && lines[i].task == t
    ensures exists i :: 0 <= i < |lines| && Reads(lines, done, i) && lines[i].task == t
  {
    var i :| 0 <= i < |lines| && lines[i].task == t;
    if !Reads(lines, done, i) {
      var j :| 0 <= j < i && lines[j].task == t;
      Earlier(lines[..i], done, t);
      var k :| 0 <= k < i && Reads(lines[..i], done, k) && lines[..i][k].task == t;
      assert Reads(lines, done, k);
    }
  }

  /** A line that is read says that the page's other eight were queued. */
  ghost predicate OpenedBy(d: Disk, page: Key) {
    exists i :: 0 <= i < |d.pending| && Reads(d.pending, d.done, i) && OpenerOf(d.pending[i].meta, page)
  }

  predicate OpenerOf(v: Meta, page: Key) {
    v.role == Rest && v.parent == page
  }

  /** A new process owes each task that `pending.txt` names and `done.txt` does not book, in the order of the file and
      for the reason its first line gives; the pages those opened are open; and each unit has the tasks of its plan
      that are not booked, in the order of the plan, the booked ones counted as asked. Everything else starts anew. */
  lemma RestartExactly(d: Disk, plan: map<Unit, seq<Task>>)
    ensures var m := Restart(d, plan);
            && Loaded(d.pending, d.done, m.subq, m.meta) && m.done == d.done
            && (forall k :: k in m.probed <==> OpenedBy(d, k))
            && m.pages.Keys == plan.Keys && m.asked.Keys == plan.Keys
            && (forall u :: u in plan ==>
                  Unasked(plan[u], d.done, m.pages[u]) && m.asked[u] + |m.pages[u]| == |plan[u]|)
            && m.inflight == {} && m.fails == map[] && m.pace == Pace(0, 0, 0)
  {
    var m := Restart(d, plan);
    var pages := map u | u in plan :: NotDone(plan[u], d.done);
    var asked := map u | u in plan :: |plan[u]| - |NotDone(plan[u], d.done)|;
    LoadExactly(d.pending, d.done, Reset(pages, asked));
    ProbedExactly(d, m.meta, m.probed);
    hide Reads, LoadedAt, MetasRead, UnaskedAt, OpenedBy;
    forall u | u in plan ensures Unasked(plan[u], d.done, m.pages[u]) { NotDoneExactly(plan[u], d.done); }
  }

  lemma ProbedExactly(d: Disk, meta: map<Task, Meta>, probed: set<Key>)
    requires MetasRead(d.pending, d.done, meta)
    requires probed == set t | t in meta && meta[t].role.Rest? :: meta[t].parent
    ensures forall k :: k in probed <==> OpenedBy(d, k)
  {
    forall k ensures k in probed <==> OpenedBy(d, k) {
      if k in probed {
        var t :| t in meta && meta[t].role.Rest? && meta[t].parent == k;
        var i :| 0 <= i < |d.pending| && Reads(d.pending, d.done, i) && d.pending[i].task == t;
        assert OpenerOf(d.pending[i].meta, k);
      }
      if OpenedBy(d, k) {
        var i :| 0 <= i < |d.pending| && Reads(d.pending, d.done, i) && OpenerOf(d.pending[i].meta, k);
        var t := d.pending[i].task;
        assert t in meta && meta[t].role.Rest? && meta[t].parent == k;
      }
    }
  }

  /** A unit that comes later: the same, and nothing else changes. */
  lemma AddedExactly(m: Mem, u: Unit, tasks: seq<Task>)
    ensures var m' := AddPages(m, u, tasks);
            && u in m'.pages && Unasked(tasks, m.done, m'.pages[u])
            && m' == m.(pages := m.pages[u := m'.pages[u]], asked := m.asked[u := |tasks| - |m'.pages[u]|])
  {
    NotDoneExactly(tasks, m.done);
  }
}
