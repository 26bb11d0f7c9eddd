/** Coverage by each step: all keep it but a settle whose prune meets a task without a meta. */
module WalkRuns {
  import opened Strings
  import opened CdxIndex
  import opened WalkState
  import opened WalkSystem
  import opened WalkCoverage
  import opened WalkSettle

  // ------------------------------------------------------------------ memory

  /** What the owed set loses on the way to the next task was booked before. */
  lemma {:induction false} TakeSubKeeps(idx: Index, m: Mem, h: History)
    requires GoodMem(idx, m, h)
    ensures var r := TakeSub(m);
      && GoodMem(idx, r.0, h) && r.0.done == m.done
      && (forall t :: t in OwedBy(m) && t !in OwedBy(r.0) ==> KeyOf(t) in m.done)
    decreases |m.subq|
  {
    if m.subq != [] && KeyOf(m.subq[0]) in m.done {
      TakeSubKeeps(idx, m.(subq := m.subq[1..], meta := m.meta - {m.subq[0]}), h);
    }
  }

  lemma {:induction false} PopKeeps(idx: Index, m: Mem, h: History, units: seq<Unit>)
    requires GoodMem(idx, m, h)
    requires forall u :: u in units ==> u in m.pages
    ensures var r := Pop(m, units);
      GoodMem(idx, r.0, h) && r.0.done == m.done && OwedBy(m) <= OwedBy(r.0)
  {
    if units != [] && m.pages[units[0]] == [] {
      PopKeeps(idx, m, h, units[1..]);
    }
  }

  lemma TakeKeeps(idx: Index, m: Mem, h: History, early: seq<Unit>, units: seq<Unit>)
    requires GoodMem(idx, m, h) && Covered(idx, OwedBy(m), m.done, h)
    requires forall u :: u in early + units ==> u in m.pages
    ensures var m' := Take(m, early, units).0;
      GoodMem(idx, m', h) && m'.done == m.done && Covered(idx, OwedBy(m'), m.done, h)
  {
    hide Covered, GoodMem;
    assert forall u :: u in early || u in units ==> u in early + units;
    PopKeeps(idx, m, h, early);
    TakeSubKeeps(idx, m, h);
    var m1 := TakeSub(m).0;
    PopKeeps(idx, m1, h, units);
    StillCovered(idx, OwedBy(m), m.done, h, OwedBy(Take(m, early, units).0), h);
  }

  lemma RequeueKeeps(idx: Index, m: Mem, h: History, task: Task, front: bool)
    requires GoodMem(idx, m, h) && Covered(idx, OwedBy(m), m.done, h) && Sized(KeyOf(task))
    ensures var e := Requeue(m, task, front);
      GoodMem(idx, e.mem, h) && e.mem.done == m.done && Covered(idx, OwedBy(e.mem), m.done, h)
  {
    var m' := Requeue(m, task, front).mem;
    assert OwedBy(m) <= OwedBy(m');
    StillCovered(idx, OwedBy(m), m.done, h, OwedBy(m'), h);
  }

  /** The counters that pace the lane are no part of coverage. */
  lemma CountersKeep(idx: Index, m: Mem, h: History, m1: Mem)
    requires GoodMem(idx, m, h) && Covered(idx, OwedBy(m), m.done, h)
    requires m1 == m.(fails := m1.fails, pace := m1.pace)
    ensures GoodMem(idx, m1, h) && Covered(idx, OwedBy(m1), m1.done, h)
  {
    assert OwedBy(m1) == OwedBy(m);
  }

  lemma ParkKeeps(idx: Index, m: Mem, h: History, task: Task)
    requires GoodMem(idx, m, h) && Covered(idx, OwedBy(m), m.done, h)
    ensures var m' := m.(inflight := m.inflight - {task}); var h' := h.(parked := h.parked + {KeyOf(task)});
      GoodMem(idx, m', h') && Covered(idx, OwedBy(m'), m.done, h')
  {
    var m', h' := m.(inflight := m.inflight - {task}), h.(parked := h.parked + {KeyOf(task)});
    forall t, r | t in OwedBy(m) && t !in OwedBy(m') && InSlice(idx, KeyOf(t), r)
      ensures Accounted(idx, OwedBy(m'), m.done, h', r, t.size)
    {
      assert t == task && KeyOf(t) in h'.skipped + h'.parked;
    }
    StillCovered(idx, OwedBy(m), m.done, h, OwedBy(m'), h');
  }

  /** A failed request is parked or put back, and only the counters change besides. */
  lemma UnansweredShape(max: nat, m: Mem, h: History, task: Task, a: Answer) returns (m1: Mem, front: bool)
    requires m.asked.Keys == m.pages.Keys && Sized(KeyOf(task))
    ensures m1 == m.(fails := m1.fails, pace := m1.pace)
    ensures var e := Unanswered(m, max, task, a); var h' := Note(h, m, task, a, e);
      || (e.mem == m1.(inflight := m1.inflight - {task}) && h' == h.(parked := h.parked + {KeyOf(task)}))
      || (e == Requeue(m1, task, front) && h' == h)
  {
    m1, front := m.(fails := m.fails[KeyOf(task) := Fails(m, KeyOf(task)) + 1]), ToFront(m.pace, max, a.status);
    if Fails(m, KeyOf(task)) < 8 || a.status in ADDRESS {
      m1 := m1.(pace := Slower(m.pace, max, a.status));
    }
  }

  lemma UnansweredKeeps(idx: Index, max: nat, m: Mem, h: History, task: Task, a: Answer)
    requires GoodMem(idx, m, h) && Covered(idx, OwedBy(m), m.done, h) && Sized(KeyOf(task))
    ensures var e := Unanswered(m, max, task, a); var h' := Note(h, m, task, a, e);
      && GoodMem(idx, e.mem, h') && e.mem.done == m.done
      && Covered(idx, OwedBy(e.mem), m.done, h') && h'.received == h.received
  {
    var m1, front := UnansweredShape(max, m, h, task, a);
    CountersKeep(idx, m, h, m1);
    ParkKeeps(idx, m1, h, task);
    RequeueKeeps(idx, m1, h, task, front);
  }

  // ------------------------------------------------------------------ files

  lemma SavedOwed(m: Mem, tail: seq<Task>, d: Disk)
    requires CanSave(m) && Tail(m, tail) && d.pending == Pending(m, tail)
    ensures OwedOn(d) == OwedBy(m)
    ensures forall i :: 0 <= i < |d.pending| ==>
              d.pending[i].task in m.meta && d.pending[i].meta == m.meta[d.pending[i].task]
  {
    var ts := m.subq + tail;
    forall t | t in OwedBy(m) ensures t in OwedOn(d) {
      assert t in ts;
      var i :| 0 <= i < |ts| && ts[i] == t;
      assert d.pending[i].task == t;
    }
  }

  lemma SaveKeeps(idx: Index, s: Sys, tail: seq<Task>)
    requires Inv(idx, s)
    requires CanSave(s.mem) ==> Tail(s.mem, tail)
    ensures Inv(idx, Save(s, tail))
  {
    if CanSave(s.mem) {
      SavedOwed(s.mem, tail, Save(s, tail).disk);
    }
  }

  function LoadFirst(lines: seq<Owed>, done: set<Key>, m: Mem): Mem
    requires lines != []
  {
    var Owed(task, meta) := lines[0];
    if KeyOf(task) !in done && task !in m.meta
    then m.(subq := m.subq + [task], meta := m.meta[task := meta]) else m
  }

  lemma LoadOne(lines: seq<Owed>, done: set<Key>, m: Mem)
    ensures LoadPending(lines, done, m) ==
            if lines == [] then m else LoadPending(lines[1..], done, LoadFirst(lines, done, m))
  {
  }

  /** What loading leaves, and where each loaded task comes from. */
  ghost predicate LoadedFrom(lines: seq<Owed>, done: set<Key>, m: Mem, m': Mem) {
    && m' == m.(subq := m'.subq, meta := m'.meta)
    && (forall t :: t in m.subq ==> t in m'.subq)
    && (forall t :: t in m.meta ==> t in m'.meta && m'.meta[t] == m.meta[t])
    && (forall t :: t in m'.subq && t !in m.subq ==> exists i :: 0 <= i < |lines| && lines[i].task == t)
    && (forall t :: t in m'.meta && t !in m.meta ==>
          t in m'.subq && exists i :: 0 <= i < |lines| && lines[i] == Owed(t, m'.meta[t]))
    && (forall i :: 0 <= i < |lines| && KeyOf(lines[i].task) !in done ==> lines[i].task in m'.meta)
  }

  lemma LoadedMore(lines: seq<Owed>, done: set<Key>, m: Mem, m': Mem)
    requires lines != [] && LoadedFrom(lines[1..], done, LoadFirst(lines, done, m), m')
    ensures LoadedFrom(lines, done, m, m')
  {
    var m1, rest := LoadFirst(lines, done, m), lines[1..];
    forall t | t in m'.subq && t !in m.subq ensures exists i :: 0 <= i < |lines| && lines[i].task == t {
      if t !in m1.subq {
        var i :| 0 <= i < |rest| && rest[i].task == t;
        assert lines[i + 1].task == t;
      } else {
        assert lines[0].task == t;
      }
    }
    forall t | t in m'.meta && t !in m.meta
      ensures t in m'.subq && exists i :: 0 <= i < |lines| && lines[i] == Owed(t, m'.meta[t])
    {
      if t !in m1.meta {
        var i :| 0 <= i < |rest| && rest[i] == Owed(t, m'.meta[t]);
        assert lines[i + 1] == Owed(t, m'.meta[t]);
      } else {
        assert lines[0] == Owed(t, m'.meta[t]);
      }
    }
    forall i | 0 <= i < |lines| && KeyOf(lines[i].task) !in done ensures lines[i].task in m'.meta {
      if i > 0 { assert lines[i] == rest[i - 1]; }
    }
  }

  /** The loaded queue owes every pending task not booked, with the metas of the file. */
  lemma {:induction false} LoadKeeps(lines: seq<Owed>, done: set<Key>, m: Mem)
    ensures LoadedFrom(lines, done, m, LoadPending(lines, done, m))
    decreases |lines|
  {
    LoadOne(lines, done, m);
    if lines != [] {
      hide LoadPending, LoadedFrom, LoadFirst;
      LoadKeeps(lines[1..], done, LoadFirst(lines, done, m));
      LoadedMore(lines, done, m, LoadPending(lines, done, m));
    }
  }

  lemma RestartLoads(d: Disk, plan: map<Unit, seq<Task>>)
    ensures var m := Restart(d, plan);
      && m.done == d.done && m.inflight == {}
      && (forall t :: t in m.subq ==> t in OwedOn(d))
      && (forall t :: t in m.meta ==>
            t in m.subq && exists i :: 0 <= i < |d.pending| && d.pending[i] == Owed(t, m.meta[t]))
      && (forall t :: t in OwedOn(d) && KeyOf(t) !in d.done ==> t in OwedBy(m))
      && (forall k :: k in m.probed ==> exists t :: t in m.meta && m.meta[t].role.Rest? && m.meta[t].parent == k)
      && (forall u :: u in m.pages ==> u in plan && forall t :: t in m.pages[u] ==> t in plan[u])
      && m.asked.Keys == m.pages.Keys
  {
    var m := Restart(d, plan);
    LoadKeeps(d.pending, d.done, Reset(m.pages, m.asked));
  }

  /** A restart from files that cover every booked page starts from a lane that does. */
  lemma RestartKeeps(idx: Index, d: Disk, h: History, plan: map<Unit, seq<Task>>)
    requires SortedIndex(idx) && GoodDisk(idx, d, h) && GoodPlan(plan)
    ensures var m := Restart(d, plan);
      GoodMem(idx, m, h) && m.done == d.done && Covered(idx, OwedBy(m), d.done, h)
  {
    RestartLoads(d, plan);
    RestartGood(idx, d, h, Restart(d, plan), plan);
    StillCovered(idx, OwedOn(d), d.done, h, OwedBy(Restart(d, plan)), h);
  }

  lemma RestartGood(idx: Index, d: Disk, h: History, m: Mem, plan: map<Unit, seq<Task>>)
    requires GoodDisk(idx, d, h) && GoodPlan(plan)
    requires m.inflight == {} && m.asked.Keys == m.pages.Keys
    requires forall t :: t in m.subq ==> t in OwedOn(d)
    requires forall t :: t in m.meta ==> exists i :: 0 <= i < |d.pending| && d.pending[i] == Owed(t, m.meta[t])
    requires forall k :: k in m.probed ==> exists t :: t in m.meta && m.meta[t].role.Rest? && m.meta[t].parent == k
    requires forall u :: u in m.pages ==> u in plan && forall t :: t in m.pages[u] ==> t in plan[u]
    ensures GoodMem(idx, m, h)
  {
    forall t | t in m.meta ensures GoodMeta(idx, h, t, m.meta[t]) {
      var i :| 0 <= i < |d.pending| && d.pending[i] == Owed(t, m.meta[t]);
    }
    forall t | t in m.subq ensures Sized(KeyOf(t)) {
      var i :| 0 <= i < |d.pending| && d.pending[i].task == t;
    }
  }

  // ------------------------------------------------------------------ one step

  /** The one step that can lose rows: a cut answer whose prune raises after the task left the queue. */
  ghost predicate LosesTask(max: nat, s: Sys, step: Step)
    requires s.mem.asked.Keys == s.mem.pages.Keys
  {
    step.Settles? && Sized(KeyOf(step.task)) &&
    Settle(s.mem, max, step.task, step.a).outcome.PruneKeyError?
  }

  /** A settle up to its rewrite of `pending.txt`: memory changed, files not. */
  lemma ChangedKeeps(idx: Index, max: nat, s: Sys, task: Task, a: Answer)
    requires Inv(idx, s) && Sized(KeyOf(task)) && Journaled(idx, s.now, KeyOf(task), a)
    requires var e := Settle(s.mem, max, task, a); !e.outcome.PruneKeyError?
    ensures var e := Settle(s.mem, max, task, a); var s1 := Changed(s, task, a, e);
      && Inv(idx, s1)
      && (e.outcome.Booked? ==> forall r :: InSlice(idx, KeyOf(task), r) ==>
            Accounted(idx, OwedBy(s1.mem), s1.mem.done, s1.now, r, task.size))
  {
    if Answered(s.mem, task, a) {
      SplitGoodMem(idx, s.mem, s.now, task, a);
      SplitCovered(idx, s.mem, s.now, task, a);
    } else {
      UnansweredKeeps(idx, max, s.mem, s.now, task, a);
    }
  }

  lemma BookKeeps(idx: Index, s: Sys, k: Key)
    requires Inv(idx, s) && s.saved == s.now && OwedOn(s.disk) == OwedBy(s.mem)
    requires forall r :: InSlice(idx, k, r) ==> Accounted(idx, OwedBy(s.mem), s.mem.done, s.now, r, k.size)
    ensures Inv(idx, BookKey(s, k))
  {
    BookKeyCovered(idx, OwedBy(s.mem), s.mem.done, s.now, k);
    assert OwedBy(BookKey(s, k).mem) == OwedBy(s.mem);
    assert OwedOn(BookKey(s, k).disk) == OwedOn(s.disk);
  }

  lemma SettleKeeps(idx: Index, max: nat, s: Sys, step: Step)
    requires Inv(idx, s) && step.Settles? && Enabled(idx, max, s, step) && !LosesTask(max, s, step)
    ensures Inv(idx, Apply(idx, max, s, step))
  {
    var Settles(task, a, tail) := step;
    var e := Settle(s.mem, max, task, a);
    ChangedKeeps(idx, max, s, task, a);
    var s1 := Changed(s, task, a, e);
    if Writes(e.outcome) {
      SaveKeeps(idx, s1, tail);
      if e.outcome.Booked? && CanSave(e.mem) {
        SavedOwed(s1.mem, tail, Save(s1, tail).disk);
        BookKeeps(idx, Save(s1, tail), KeyOf(task));
      }
    }
  }

  lemma AskKeeps(idx: Index, s: Sys, rows: set<RowId>)
    requires Inv(idx, s)
    ensures Inv(idx, s.(now := s.now.(received := s.now.received + rows),
                        saved := s.saved.(received := s.saved.received + rows)))
  {
    var now := s.now.(received := s.now.received + rows);
    var saved := s.saved.(received := s.saved.received + rows);
    StillCovered(idx, OwedBy(s.mem), s.mem.done, s.now, OwedBy(s.mem), now);
    StillCovered(idx, OwedOn(s.disk), s.disk.done, s.saved, OwedOn(s.disk), saved);
  }

  lemma KillKeeps(idx: Index, s: Sys, plan: map<Unit, seq<Task>>)
    requires Inv(idx, s) && GoodPlan(plan)
    ensures Inv(idx, s.(mem := Restart(s.disk, plan), now := s.saved))
  {
    RestartKeeps(idx, s.disk, s.saved, plan);
  }

  /** Every step but a losing settle keeps the invariant: a kill between any two writes included. */
  lemma StepKeeps(idx: Index, max: nat, s: Sys, step: Step)
    requires Inv(idx, s) && Enabled(idx, max, s, step) && !LosesTask(max, s, step)
    ensures Inv(idx, Apply(idx, max, s, step))
  {
    hide Accounted, Covered, GoodDisk;
    match step
    case Takes(early, units) => TakeKeeps(idx, s.mem, s.now, early, units);
    case Asks(task, lo, n) => AskKeeps(idx, s, Delivered(KeyOf(task), lo, n));
    case Settles(_, _, _) => SettleKeeps(idx, max, s, step);
    case AskFails(task, _, tail) =>
      if task in s.mem.inflight {
        var e := Requeue(s.mem, task, true);
        RequeueKeeps(idx, s.mem, s.now, task, true);
        if Writes(e.outcome) { SaveKeeps(idx, s.(mem := e.mem), tail); }
      }
    case Adds(u, tasks) =>
      var m := AddPages(s.mem, u, tasks);
      assert OwedBy(m) == OwedBy(s.mem);
      assert forall t :: t in tasks ==> t in map[u := tasks][u];
    case Kill(plan) => KillKeeps(idx, s, plan);
    case KillInSettle(task, a, tail, plan) =>
      ChangedKeeps(idx, max, s, task, a);
      var s1 := Changed(s, task, a, Settle(s.mem, max, task, a));
      SaveKeeps(idx, s1, tail);
      KillKeeps(idx, Save(s1, tail), plan);
  }

  lemma InitialInv(idx: Index, s: Sys)
    requires SortedIndex(idx) && Initial(s)
    ensures Inv(idx, s)
  {
    assert OwedBy(s.mem) == {} && OwedOn(s.disk) == {};
  }
}
