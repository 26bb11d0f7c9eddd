/** A clean lane holds each slice at most once, so no call raises: kept by every step, restarts included,
    unless the process dies after `pending.txt` names new subpages and before their page is booked. */
module WalkClean {
  import opened Strings
  import opened CdxIndex
  import opened WalkState
  import opened WalkSystem
  import opened WalkCoverage
  import opened WalkSettle
  import opened WalkRuns

  // ------------------------------------------------------------------ who is live

  function Queued(m: Mem): set<Task> {
    set u, t | u in m.pages && t in m.pages[u] :: t
  }

  function Live(m: Mem): set<Task> {
    (set t | t in m.subq) + m.inflight + Queued(m)
  }

  /** The shape of a subpage and its meta. */
  predicate Subpage(t: Task, v: Meta) {
    && Sized(KeyOf(t)) && t.page.Number? && t.size < PAGE
    && v.parent == Parent(KeyOf(t))
    && (!v.role.Cut? ==> t.size * 10 == PAGE)
    && (v.role.Rest? ==> t.page.n % 10 in REST)
  }

  predicate IsProbe(meta: map<Task, Meta>, t: Task) {
    t in meta && meta[t].role.Probe?
  }

  predicate Beside(t: Task, v: Meta, w: Meta) {
    t.page.Number? && w.parent == v.parent && t.page.n % 10 in REST
  }

  /** A live subpage beside a live probe is the other probe, or one of the eight already opened. */
  ghost predicate Siblings(live: set<Task>, meta: map<Task, Meta>, probed: set<Key>) {
    forall t, u ::
      (t in live && u in live && IsProbe(meta, t) && u in meta && Beside(u, meta[t], meta[u])) ==>
      meta[u].role.Rest? && meta[t].parent in probed
  }

  ghost predicate KeysDiffer(live: set<Task>) {
    forall t, u :: t in live && u in live && KeyOf(t) == KeyOf(u) ==> t == u
  }

  ghost predicate ParentsBooked(live: set<Task>, meta: map<Task, Meta>, done: set<Key>) {
    forall t :: t in live && t in meta ==> meta[t].parent in done
  }

  ghost predicate GoodMetas(meta: map<Task, Meta>) {
    forall t :: t in meta ==> Subpage(t, meta[t])
  }

  ghost predicate GoodSubq(m: Mem) {
    Distinct(m.subq) && forall t :: t in m.subq ==> t in m.meta && t !in m.inflight
  }

  ghost predicate InFlight(m: Mem, t: Task) {
    && Sized(KeyOf(t)) && KeyOf(t) !in m.done
    && (t in m.meta <==> !Root(KeyOf(t)))
    && (Root(KeyOf(t)) ==> UnitOf(t) in m.pages)
  }

  ghost predicate GoodInflight(m: Mem) {
    forall t :: t in m.inflight ==> InFlight(m, t)
  }

  ghost predicate InUnit(m: Mem, u: Unit, t: Task) {
    Sized(KeyOf(t)) && Root(KeyOf(t)) && UnitOf(t) == u && KeyOf(t) !in m.done && t !in m.inflight
  }

  ghost predicate GoodUnits(m: Mem) {
    && m.asked.Keys == m.pages.Keys
    && (forall u :: u in m.pages ==> Distinct(m.pages[u]))
    && (forall u, t :: u in m.pages && t in m.pages[u] ==> InUnit(m, u, t))
  }

  ghost predicate GoodQueues(m: Mem) {
    GoodMetas(m.meta) && GoodSubq(m) && GoodInflight(m) && GoodUnits(m)
  }

  ghost predicate GoodLive(m: Mem) {
    && KeysDiffer(Live(m))
    && ParentsBooked(Live(m), m.meta, m.done)
    && Siblings(Live(m), m.meta, m.probed)
  }

  /** Each slice is in at most one of its unit's queue, the owed subpages and the in-flight set. */
  ghost predicate Clean(m: Mem) {
    GoodQueues(m) && GoodLive(m)
  }

  /** The files leave a clean lane to the next start. */
  ghost predicate CleanDisk(d: Disk) {
    && (forall i :: 0 <= i < |d.pending| ==>
          Subpage(d.pending[i].task, d.pending[i].meta) && d.pending[i].meta.parent in d.done)
    && (forall i, j :: 0 <= i < j < |d.pending| ==> KeyOf(d.pending[i].task) != KeyOf(d.pending[j].task))
    && (forall i, j ::
          (0 <= i < |d.pending| && 0 <= j < |d.pending|
          && d.pending[i].meta.role.Probe? && Beside(d.pending[j].task, d.pending[i].meta, d.pending[j].meta)) ==>
          d.pending[j].meta.role.Rest?)
  }

  // ------------------------------------------------------------------ no call raises

  lemma CleanCanSave(m: Mem)
    requires Clean(m)
    ensures CanSave(m)
  {
  }

  /** On a clean lane neither lookup of a call under the lock can miss its key. */
  lemma NeverRaises(max: nat, m: Mem, task: Task, a: Answer)
    requires Clean(m) && task in m.inflight
    ensures Writes(Settle(m, max, task, a).outcome)
    ensures Writes(Requeue(m, task, true).outcome)
  {
  }

  // ------------------------------------------------------------------ take and requeue

  /** What holds of the live tasks holds of fewer of them. */
  lemma FewerLive(m: Mem, m': Mem)
    requires GoodLive(m)
    requires Live(m') <= Live(m) && m'.probed == m.probed && m'.done == m.done
    requires forall t :: t in Live(m') && t in m'.meta ==> t in m.meta && m'.meta[t] == m.meta[t]
    ensures GoodLive(m')
  {
  }

  ghost predicate SameMetas(m: Mem, m': Mem) {
    && m'.probed == m.probed && m'.fails == m.fails
    && forall t :: t in m'.meta ==> t in m.meta && m'.meta[t] == m.meta[t]
  }

  function Headless(m: Mem): Mem
    requires m.subq != []
  {
    m.(subq := m.subq[1..])
  }

  lemma HeadTaken(m: Mem)
    requires Clean(m) && m.subq != [] && KeyOf(m.subq[0]) !in m.done
    ensures var m1 := Headless(m).(inflight := m.inflight + {m.subq[0]}); Clean(m1) && Live(m1) <= Live(m)
  {
    var m1 := Headless(m).(inflight := m.inflight + {m.subq[0]});
    assert m.subq == [m.subq[0]] + m.subq[1..];
    assert Queued(m1) == Queued(m);
    FewerLive(m, m1);
    assert GoodQueues(m1);
  }

  lemma HeadDropped(m: Mem)
    requires Clean(m) && m.subq != []
    ensures var m1 := Headless(m).(meta := m.meta - {m.subq[0]}); Clean(m1) && Live(m1) <= Live(m)
  {
    var m1 := Headless(m).(meta := m.meta - {m.subq[0]});
    assert m.subq == [m.subq[0]] + m.subq[1..];
    assert Queued(m1) == Queued(m);
    FewerLive(m, m1);
    assert GoodQueues(m1);
  }

  lemma {:induction false} CleanTakeSub(m: Mem)
    requires Clean(m)
    ensures Clean(TakeSub(m).0) && TakeSub(m).0.done == m.done
    ensures Live(TakeSub(m).0) <= Live(m) && SameMetas(m, TakeSub(m).0)
    decreases |m.subq|
  {
    hide Clean, Live;
    if m.subq != [] {
      if KeyOf(m.subq[0]) !in m.done {
        HeadTaken(m);
      } else {
        HeadDropped(m);
        CleanTakeSub(m.(subq := m.subq[1..], meta := m.meta - {m.subq[0]}));
      }
    }
  }

  function Popped(m: Mem, u: Unit): Mem
    requires u in m.pages && u in m.asked && m.pages[u] != []
  {
    m.(pages := m.pages[u := m.pages[u][1..]], asked := m.asked[u := m.asked[u] + 1],
       inflight := m.inflight + {m.pages[u][0]})
  }

  lemma PopLive(m: Mem, u: Unit)
    requires u in m.pages && u in m.asked && m.pages[u] != []
    ensures Live(Popped(m, u)) == Live(m)
  {
    var m1 := Popped(m, u);
    assert m.pages[u] == [m.pages[u][0]] + m.pages[u][1..];
    forall t | t in Live(m) ensures t in Live(m1) {
      if t in Queued(m) && t !in m1.inflight {
        var v :| v in m.pages && t in m.pages[v];
        assert t in m1.pages[v];
      }
    }
    forall t | t in Live(m1) ensures t in Live(m) {
      if t in Queued(m1) {
        var v :| v in m1.pages && t in m1.pages[v];
        assert t in m.pages[v];
      } else if t == m.pages[u][0] {
        assert u in m.pages && t in m.pages[u];
      }
    }
  }

  lemma {:induction false} CleanPop(m: Mem, units: seq<Unit>)
    requires Clean(m)
    requires forall u :: u in units ==> u in m.pages
    ensures Clean(Pop(m, units).0) && Pop(m, units).0.done == m.done
    ensures Live(Pop(m, units).0) == Live(m) && SameMetas(m, Pop(m, units).0)
  {
    if units != [] {
      var u := units[0];
      if m.pages[u] == [] {
        CleanPop(m, units[1..]);
      } else {
        PopLive(m, u);
        FewerLive(m, Popped(m, u));
        PoppedQueues(m, u);
      }
    }
  }

  lemma CleanTake(m: Mem, early: seq<Unit>, units: seq<Unit>)
    requires Clean(m) && forall u :: u in early + units ==> u in m.pages
    ensures var m' := Take(m, early, units).0;
      Clean(m') && m'.done == m.done && Live(m') <= Live(m) && SameMetas(m, m')
  {
    assert forall u :: u in early || u in units ==> u in early + units;
    CleanPop(m, early);
    CleanTakeSub(m);
    CleanPop(TakeSub(m).0, units);
  }

  lemma PoppedQueues(m: Mem, u: Unit)
    requires GoodQueues(m) && u in m.pages && m.pages[u] != []
    ensures GoodQueues(Popped(m, u))
  {
    var task, m1 := m.pages[u][0], Popped(m, u);
    assert m.pages[u] == [task] + m.pages[u][1..];
    forall v, t | v in m1.pages && t in m1.pages[v] ensures InUnit(m1, v, t) {
      assert t in m.pages[v];
      assert InUnit(m, u, task);
    }
  }

  lemma RequeueLive(m: Mem, task: Task, front: bool)
    requires Clean(m) && task in m.inflight
    ensures Live(Requeue(m, task, front).mem) == Live(m)
  {
    var m', u := Requeue(m, task, front).mem, UnitOf(task);
    if task !in m.meta {
      forall t | t in Live(m) ensures t in Live(m') {
        if t in Queued(m) {
          var v :| v in m.pages && t in m.pages[v];
          assert t in m'.pages[v];
        } else if t == task {
          assert t in m'.pages[u];
        }
      }
      forall t | t in Live(m') ensures t in Live(m) {
        if t in Queued(m') {
          var v :| v in m'.pages && t in m'.pages[v];
          assert t == task || t in m.pages[v];
        }
      }
    }
  }

  lemma CleanRequeue(m: Mem, task: Task, front: bool)
    requires Clean(m) && task in m.inflight
    ensures Clean(Requeue(m, task, front).mem) && Requeue(m, task, front).mem.done == m.done
    ensures Live(Requeue(m, task, front).mem) == Live(m)
  {
    RequeueLive(m, task, front);
    var m', u := Requeue(m, task, front).mem, UnitOf(task);
    FewerLive(m, m');
    assert InFlight(m, task);
    if task !in m.meta {
      forall v, t | v in m'.pages && t in m'.pages[v] ensures InUnit(m', v, t) {
        assert t == task || t in m.pages[v];
      }
      RequeueDistinct(m, task, u);
    }
    assert GoodQueues(m');
  }

  lemma RequeueDistinct(m: Mem, task: Task, u: Unit)
    requires GoodUnits(m) && task in m.inflight && u in m.pages
    ensures Distinct([task] + m.pages[u]) && Distinct(m.pages[u] + [task])
  {
    forall t | t in m.pages[u] ensures t != task {
      assert InUnit(m, u, t);
    }
    DistinctConcat([task], m.pages[u]);
    DistinctConcat(m.pages[u], [task]);
  }

  /** The counters that pace the lane are no part of cleanliness. */
  lemma CleanCounters(m: Mem, m1: Mem)
    requires Clean(m)
    requires m1 == m.(fails := m1.fails, pace := m1.pace)
    ensures Clean(m1) && Live(m1) == Live(m)
  {
    assert Queued(m1) == Queued(m);
    assert forall t :: InFlight(m, t) <==> InFlight(m1, t);
    assert forall u, t :: InUnit(m, u, t) <==> InUnit(m1, u, t);
  }

  lemma CleanPark(m: Mem, task: Task)
    requires Clean(m) && task in m.inflight
    ensures Clean(m.(inflight := m.inflight - {task}))
    ensures Live(m.(inflight := m.inflight - {task})) == Live(m) - {task}
  {
    var m' := m.(inflight := m.inflight - {task});
    forall v, t | v in m.pages && t in m.pages[v] ensures t != task && InUnit(m', v, t) {
      assert InUnit(m, v, t);
    }
    assert forall t :: t in m'.inflight ==> InFlight(m, t) && InFlight(m', t);
    FewerLive(m, m');
  }

  /** A failed request is parked or put back behind new counters. */
  lemma UnansweredParts(max: nat, m: Mem, task: Task, a: Answer) returns (m1: Mem, front: bool)
    requires m.asked.Keys == m.pages.Keys
    ensures m1 == m.(fails := m1.fails, pace := m1.pace)
    ensures var e := Unanswered(m, max, task, a);
      e == Effect(m1.(inflight := m1.inflight - {task}), Parked) || e == Requeue(m1, task, front)
  {
    m1, front := m.(fails := m.fails[KeyOf(task) := Fails(m, KeyOf(task)) + 1]), ToFront(m.pace, max, a.status);
    if Fails(m, KeyOf(task)) < 8 || a.status in ADDRESS {
      m1 := m1.(pace := Slower(m.pace, max, a.status));
    }
  }

  lemma CleanUnanswered(max: nat, m: Mem, task: Task, a: Answer)
    requires Clean(m) && task in m.inflight
    ensures var m' := Unanswered(m, max, task, a).mem;
      Clean(m') && m'.done == m.done && Live(m') <= Live(m) && m'.meta == m.meta
  {
    var m1, front := UnansweredParts(max, m, task, a);
    hide Clean, Live, Requeue, Unanswered;
    CleanCounters(m, m1);
    CleanPark(m1, task);
    CleanRequeue(m1, task, front);
    RequeueMeta(m1, task, front);
  }

  lemma RequeueMeta(m: Mem, task: Task, front: bool)
    requires m.asked.Keys == m.pages.Keys
    ensures Requeue(m, task, front).mem.meta == m.meta
  {
  }

  // ------------------------------------------------------------------ a booked answer

  lemma {:induction false} DropLowerDistinct(subq: seq<Task>, meta: map<Task, Meta>, parent: Key, task: Task)
    requires Distinct(subq) && forall t :: t in subq ==> t in meta
    ensures Distinct(DropLower(subq, meta, parent, task))
  {
    if subq != [] {
      assert subq == [subq[0]] + subq[1..];
      DropLowerDistinct(subq[1..], meta, parent, task);
      var rest := DropLower(subq[1..], meta, parent, task);
      assert forall t :: t in rest ==> t in subq[1..];
      DistinctConcat([subq[0]], rest);
    }
  }

  function Base(m: Mem, task: Task, a: Answer): Mem
    requires !PruneRaises(m, task, a)
  {
    Pruned(m, task, a).(done := m.done + {KeyOf(task)})
  }

  lemma PrunedLive(m: Mem, task: Task, a: Answer)
    requires Clean(m) && task in m.inflight && !PruneRaises(m, task, a)
    ensures Live(Pruned(m, task, a)) <= Live(m) - {task}
  {
    var b := Pruned(m, task, a);
    assert Queued(b) == Queued(m);
    forall u, t | u in m.pages && t in m.pages[u] ensures t != task {
      assert InUnit(m, u, t);
    }
  }

  lemma BookedLive(m: Mem, k: Key)
    requires GoodLive(m)
    ensures var m' := m.(done := m.done + {k}); GoodLive(m') && Live(m') == Live(m)
  {
    assert Queued(m.(done := m.done + {k})) == Queued(m);
  }

  lemma BaseLive(m: Mem, task: Task, a: Answer)
    requires Clean(m) && task in m.inflight && !PruneRaises(m, task, a)
    ensures Live(Base(m, task, a)) <= Live(m) - {task} && GoodLive(Base(m, task, a))
  {
    PrunedLive(m, task, a);
    hide Live, GoodQueues;
    FewerLive(m, Pruned(m, task, a));
    BookedLive(Pruned(m, task, a), KeyOf(task));
  }

  lemma BaseQueues(m: Mem, task: Task, a: Answer)
    requires Clean(m) && task in m.inflight && !PruneRaises(m, task, a)
    ensures GoodQueues(Base(m, task, a))
  {
    var b := Base(m, task, a);
    if Prunes(m, task, a) {
      DropLowerDistinct(m.subq, m.meta - {task}, m.meta[task].parent, task);
    }
    forall u, t | u in m.pages && t in m.pages[u] ensures InUnit(b, u, t) {
      assert t in Queued(m) && t in Live(m) && InUnit(m, u, t);
    }
    forall t | t in b.inflight ensures InFlight(b, t) {
      assert InFlight(m, t) && t in Live(m);
    }
  }

  /** The settled task gone and its key booked, before any new subpage. */
  lemma CleanBase(m: Mem, task: Task, a: Answer)
    requires Clean(m) && task in m.inflight && !PruneRaises(m, task, a)
    ensures Clean(Base(m, task, a)) && Live(Base(m, task, a)) <= Live(m) - {task}
  {
    BaseLive(m, task, a);
    BaseQueues(m, task, a);
  }

  function Added(m: Mem, ts: seq<Task>, v: Meta): Mem {
    m.(meta := WithMeta(m.meta, ts, v), subq := ts + m.subq)
  }

  /** New subpages of one page that no live task holds. */
  ghost predicate Fresh(m: Mem, ts: seq<Task>, v: Meta) {
    && Distinct(ts) && KeysDiffer(set t | t in ts) && v.parent in m.done
    && (forall t :: t in ts ==> Subpage(t, v))
    && (forall t, u :: t in ts && u in Live(m) ==> KeyOf(t) != KeyOf(u))
    && (forall t :: t in Live(m) && IsProbe(m.meta, t) && m.meta[t].parent == v.parent ==>
          v.role.Rest? && v.parent in m.probed)
    && (v.role.Probe? ==>
          && (forall t :: t in ts ==> t.page.n % 10 !in REST)
          && (forall t :: t in Live(m) && t in m.meta ==> m.meta[t].parent != v.parent))
  }

  lemma CleanAdded(m: Mem, ts: seq<Task>, v: Meta)
    requires Clean(m) && Fresh(m, ts, v)
    ensures Clean(Added(m, ts, v)) && Live(Added(m, ts, v)) == Live(m) + (set t | t in ts)
  {
    hide Siblings, KeysDiffer, ParentsBooked;
    var m' := Added(m, ts, v);
    assert Queued(m') == Queued(m);
    assert Live(m') == Live(m) + (set t | t in ts);
    forall t | t in ts ensures t !in m.subq {
      assert t in m.subq ==> t in Live(m);
    }
    DistinctConcat(ts, m.subq);
    AddedFlying(m, ts, v);
    AddedLive(m, ts, v);
  }

  lemma AddedFlying(m: Mem, ts: seq<Task>, v: Meta)
    requires Clean(m) && Fresh(m, ts, v)
    ensures GoodInflight(Added(m, ts, v)) && GoodUnits(Added(m, ts, v))
    ensures forall t :: t in ts ==> t !in m.inflight
  {
    var m' := Added(m, ts, v);
    forall t | t in m'.inflight ensures InFlight(m', t) && t !in ts {
      assert InFlight(m, t) && t in Live(m);
    }
    forall u, t | u in m'.pages && t in m'.pages[u] ensures InUnit(m', u, t) {
      assert InUnit(m, u, t);
    }
  }

  lemma AddedLive(m: Mem, ts: seq<Task>, v: Meta)
    requires Clean(m) && Fresh(m, ts, v) && Live(Added(m, ts, v)) == Live(m) + (set t | t in ts)
    ensures GoodLive(Added(m, ts, v))
  {
    hide Subpage, Live;
    var m' := Added(m, ts, v);
    forall t | t in Live(m) ensures t !in ts {
      assert t in ts ==> KeyOf(t) != KeyOf(t);
    }
    assert forall t :: t in Live(m) && t in m'.meta ==> t in m.meta && m'.meta[t] == m.meta[t];
    assert forall t :: t in ts ==> m'.meta[t] == v;
    assert Siblings(Live(m'), m'.meta, m'.probed);
  }

  lemma QueuedRoot(m: Mem)
    requires GoodUnits(m)
    ensures forall t :: t in Queued(m) ==> Root(KeyOf(t))
  {
    forall t | t in Queued(m) ensures Root(KeyOf(t)) {
      var u :| u in m.pages && t in m.pages[u];
      assert InUnit(m, u, t);
    }
  }

  /** A live subpage is in the metas, under its own parent, which is booked. */
  lemma LiveChild(m: Mem, t: Task)
    requires Clean(m) && t in Live(m) && !Root(KeyOf(t))
    ensures t in m.meta && m.meta[t].parent == Parent(KeyOf(t)) && m.meta[t].parent in m.done
  {
    QueuedRoot(m);
    assert t in m.inflight ==> InFlight(m, t);
  }

  /** The eight siblings of a probe are eight subpages of its page. */
  lemma RestShape(task: Task, v: Meta)
    requires Subpage(task, v) && v.role.Probe?
    ensures var ts, w := RestOf(task), Meta(Rest, v.parent, "");
      && Distinct(ts) && KeysDiffer(set t | t in ts)
      && forall t :: t in ts ==> Subpage(t, w) && Beside(t, v, w)
  {
    var ts, w := RestOf(task), Meta(Rest, v.parent, "");
    forall t | t in ts ensures Subpage(t, w) && Beside(t, v, w) {
      var i :| 0 <= i < |REST| && t == ts[i];
      assert t.page.n % 10 == REST[i] && t.page.n / 10 == task.page.n / 10;
    }
    forall i, j | 0 <= i < j < |ts| ensures ts[i] != ts[j] {
      assert REST[i] != REST[j];
    }
    assert KeysDiffer(set t | t in ts);
  }

  lemma RestKeysNew(m: Mem, task: Task, b: Mem)
    requires Clean(m) && task in Live(m) && IsProbe(m.meta, task) && m.meta[task].parent !in m.probed
    requires Clean(b) && Live(b) <= Live(m)
    requires forall t :: t in b.meta ==> t in m.meta && b.meta[t] == m.meta[t]
    requires task.page.Number?
    ensures forall t, u :: t in RestOf(task) && u in Live(b) ==> KeyOf(t) != KeyOf(u)
  {
    var v := m.meta[task];
    RestShape(task, v);
    forall t, u | t in RestOf(task) && u in Live(b) ensures KeyOf(t) != KeyOf(u) {
      if KeyOf(t) == KeyOf(u) {
        LiveChild(b, u);
        assert Beside(u, v, m.meta[u]);
      }
    }
  }

  /** The eight opened siblings are fresh: none is live, or the page would be opened already. */
  lemma RestFresh(m: Mem, task: Task, a: Answer)
    requires Clean(m) && task in m.inflight && !PruneRaises(m, task, a) && Opens(m, task, a)
    ensures var v := Meta(Rest, m.meta[task].parent, ""); var b := Base(m, task, a);
      Clean(b.(probed := b.probed + {v.parent})) && Fresh(b.(probed := b.probed + {v.parent}), RestOf(task), v)
  {
    var v, b := Meta(Rest, m.meta[task].parent, ""), Base(m, task, a);
    CleanBase(m, task, a);
    CleanProbed(b, v.parent);
    RestShape(task, m.meta[task]);
    RestKeysNew(m, task, b);
    hide Clean, Live, KeysDiffer, Subpage;
    ProbePageBooked(m, task);
  }

  lemma ProbePageBooked(m: Mem, task: Task)
    requires Clean(m) && task in m.inflight && task in m.meta
    ensures m.meta[task].parent in m.done
  {
    assert task in Live(m);
  }

  lemma CleanProbed(m: Mem, k: Key)
    requires Clean(m)
    ensures Clean(m.(probed := m.probed + {k})) && Live(m.(probed := m.probed + {k})) == Live(m)
  {
    var m' := m.(probed := m.probed + {k});
    assert Queued(m') == Queued(m);
    assert forall t :: t in m.inflight ==> InFlight(m, t) && InFlight(m', t);
    assert forall u, t :: u in m.pages && t in m.pages[u] ==> InUnit(m, u, t) && InUnit(m', u, t);
  }

  lemma SubsShape(task: Task, a: Answer)
    requires Sized(KeyOf(task)) && Subpages(task, a.edge.Some?) != []
    ensures var ts := Subpages(task, a.edge.Some?); var v := SubMeta(task, a);
      && Distinct(ts) && KeysDiffer(set t | t in ts)
      && (forall t :: t in ts ==> Subpage(t, v) && !Root(KeyOf(t)) && (v.role.Probe? ==> t.page.n % 10 !in REST))
  {
    var ts, v, js := Subpages(task, a.edge.Some?), SubMeta(task, a), if a.edge.Some? then ALL_TEN else PROBES;
    forall t | t in ts ensures Subpage(t, v) && !Root(KeyOf(t)) && (v.role.Probe? ==> t.page.n % 10 !in REST) {
      SubpageOf(task, a.edge.Some?, t);
      var i :| 0 <= i < |js| && t == ts[i];
      assert t.page.n == task.page.n * 10 + js[i];
    }
    forall i, j | 0 <= i < j < |ts| ensures ts[i] != ts[j] {
      assert js[i] != js[j];
    }
    assert KeysDiffer(set t | t in ts);
  }

  /** The new subpages of a booked page are fresh: a live one would have a booked parent already. */
  lemma SubsFresh(m: Mem, task: Task, a: Answer, b: Mem)
    requires Clean(m) && task in m.inflight && !Whole(a) && Sized(KeyOf(task)) && Subpages(task, a.edge.Some?) != []
    requires Clean(b) && b.done == m.done + {KeyOf(task)}
    requires forall t :: t in Live(b) ==>
      t in Live(m) || (t in b.meta && Sized(b.meta[t].parent) && b.meta[t].parent.size > task.size)
    requires forall t :: t in Live(b) && t in Live(m) && t in b.meta ==> t in m.meta && m.meta[t] == b.meta[t]
    ensures Fresh(b, Subpages(task, a.edge.Some?), SubMeta(task, a))
  {
    var ts, v := Subpages(task, a.edge.Some?), SubMeta(task, a);
    SubsShape(task, a);
    assert InFlight(m, task);
    forall u | u in Live(b) && u in b.meta ensures b.meta[u].parent != v.parent {
      assert u in Live(m) ==> m.meta[u].parent in m.done;
    }
    forall t, u | t in ts && u in Live(b) ensures KeyOf(t) != KeyOf(u) {
      if KeyOf(t) == KeyOf(u) {
        LiveChild(b, u);
      }
    }
  }

  /** The base with the opened siblings, when the answer opens them. */
  function Unfolded(m: Mem, task: Task, a: Answer): Mem
    requires !PruneRaises(m, task, a)
  {
    var b := Base(m, task, a);
    if Opens(m, task, a) then
      var v := Meta(Rest, m.meta[task].parent, "");
      Added(b.(probed := b.probed + {v.parent}), RestOf(task), v)
    else b
  }

  lemma CleanUnfolded(m: Mem, task: Task, a: Answer)
    requires Clean(m) && task in m.inflight && !PruneRaises(m, task, a)
    ensures var b := Unfolded(m, task, a);
      && Clean(b) && b.done == m.done + {KeyOf(task)}
      && (forall t :: t in Live(b) ==>
            t in Live(m) || (t in b.meta && Sized(b.meta[t].parent) && b.meta[t].parent.size > task.size))
      && (forall t :: t in Live(b) && t in Live(m) && t in b.meta ==> t in m.meta && m.meta[t] == b.meta[t])
  {
    var b := Base(m, task, a);
    CleanBase(m, task, a);
    if Opens(m, task, a) {
      var v := Meta(Rest, m.meta[task].parent, "");
      var b0 := b.(probed := b.probed + {v.parent});
      RestFresh(m, task, a);
      CleanAdded(b0, RestOf(task), v);
      assert Live(b0) == Live(b);
      forall t | t in RestOf(task) ensures t !in Live(m) {
        RestNotLive(m, task, a, t);
      }
    }
  }

  lemma RestNotLive(m: Mem, task: Task, a: Answer, t: Task)
    requires Clean(m) && task in m.inflight && Opens(m, task, a) && t in RestOf(task)
    ensures t !in Live(m)
  {
    var i :| 0 <= i < |REST| && t == RestOf(task)[i];
    assert t.page.n % 10 == REST[i] && t.page.n / 10 == task.page.n / 10;
    if t in Live(m) {
      LiveChild(m, t);
      assert Beside(t, m.meta[task], m.meta[t]);
    }
  }

  lemma SplitIsAdded(m: Mem, task: Task, a: Answer)
    requires !PruneRaises(m, task, a) && Sized(KeyOf(task))
    ensures var m' := Split(m, task, a); var b := Unfolded(m, task, a);
      m'.(done := m'.done + {KeyOf(task)}) ==
      if Whole(a) || Subpages(task, a.edge.Some?) == [] then b
      else Added(b, Subpages(task, a.edge.Some?), SubMeta(task, a))
  {
    assert WithMeta(OpenRest(m, task, a).meta, [], SubMeta(task, a)) == OpenRest(m, task, a).meta;
    assert [] + OpenRest(m, task, a).subq == OpenRest(m, task, a).subq;
  }

  /** A booked answer leaves a clean lane, whatever it was. */
  lemma CleanBooked(m: Mem, task: Task, a: Answer)
    requires Clean(m) && task in m.inflight && !PruneRaises(m, task, a) && Sized(KeyOf(task))
    ensures var m' := Split(m, task, a); Clean(m'.(done := m'.done + {KeyOf(task)}))
  {
    CleanUnfolded(m, task, a);
    SplitIsAdded(m, task, a);
    if !Whole(a) && Subpages(task, a.edge.Some?) != [] {
      SubsFresh(m, task, a, Unfolded(m, task, a));
      CleanAdded(Unfolded(m, task, a), Subpages(task, a.edge.Some?), SubMeta(task, a));
    }
  }
}
