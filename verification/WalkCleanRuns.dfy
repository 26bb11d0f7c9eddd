/** Cleanliness over whole runs, and the one kill that breaks it. */
module WalkCleanRuns {
  import opened Strings
  import opened CdxIndex
  import opened WalkState
  import opened WalkSystem
  import opened WalkCoverage
  import opened WalkRuns
  import opened WalkClean
  import WalkSettle

  /** A booked subpage's page is booked. */
  ghost predicate DoneClosed(done: set<Key>) {
    forall k :: k in done && Sized(k) && !Root(k) ==> Parent(k) in done
  }

  /** Each task in flight is held by one worker, and no worker holds any other. */
  ghost predicate Staffed(inflight: set<Task>, crew: multiset<Worker>) {
    && (forall t :: crew[Asking(t)] == if t in inflight then 1 else 0)
    && (forall t :: crew[Raised(t)] == 0)
  }

  ghost predicate CleanSys(s: Sys) {
    && Clean(s.mem) && CleanDisk(s.disk) && s.mem.done == s.disk.done && DoneClosed(s.mem.done)
    && Staffed(s.mem.inflight, s.crew)
  }

  /** Each page of a unit is queued once, in one unit. */
  ghost predicate CleanPlan(plan: map<Unit, seq<Task>>) {
    && GoodPlan(plan)
    && (forall u :: u in plan ==> Distinct(plan[u]))
    && (forall u, v, t, w :: u in plan && v in plan && t in plan[u] && w in plan[v] && KeyOf(t) == KeyOf(w) ==> t == w)
  }

  // ------------------------------------------------------------------ who holds what

  lemma {:induction false} PopHires(m: Mem, units: seq<Unit>)
    requires GoodUnits(m) && forall u :: u in units ==> u in m.pages
    ensures var (m', t) := Pop(m, units);
      if t.None? then m'.inflight == m.inflight
      else m'.inflight == m.inflight + {t.value} && t.value !in m.inflight
  {
    if units != [] {
      if m.pages[units[0]] == [] {
        PopHires(m, units[1..]);
      } else {
        assert InUnit(m, units[0], m.pages[units[0]][0]);
      }
    }
  }

  lemma {:induction false} TakeSubHires(m: Mem)
    requires forall t :: t in m.subq ==> t !in m.inflight
    ensures var (m', t) := TakeSub(m);
      if t.None? then m'.inflight == m.inflight
      else m'.inflight == m.inflight + {t.value} && t.value !in m.inflight
    decreases |m.subq|
  {
    if m.subq != [] && KeyOf(m.subq[0]) in m.done {
      TakeSubHires(m.(subq := m.subq[1..], meta := m.meta - {m.subq[0]}));
    }
  }

  lemma TakeHires(m: Mem, early: seq<Unit>, units: seq<Unit>)
    requires Clean(m) && forall u :: u in early + units ==> u in m.pages
    ensures var (m', t) := Take(m, early, units);
      if t.None? then m'.inflight == m.inflight
      else m'.inflight == m.inflight + {t.value} && t.value !in m.inflight
  {
    assert forall u :: u in early || u in units ==> u in early + units;
    PopHires(m, early);
    TakeSubHires(m);
    CleanTakeSub(m);
    PopHires(TakeSub(m).0, units);
  }

  lemma HiredStaffed(inflight: set<Task>, crew: multiset<Worker>, task: Option<Task>)
    requires Staffed(inflight, crew) && (task.Some? ==> task.value !in inflight)
    ensures Staffed(if task.Some? then inflight + {task.value} else inflight, crew + Hired(task))
  {
  }

  lemma LeftStaffed(inflight: set<Task>, crew: multiset<Worker>, task: Task)
    requires Staffed(inflight, crew) && task in inflight
    ensures Staffed(inflight - {task}, crew - multiset{Asking(task)})
  {
  }

  lemma NobodyStaffed()
    ensures Staffed({}, multiset{})
  {
  }

  /** What a worker of a clean lane holds is in flight, and none waits to handle an exception. */
  lemma Holds(s: Sys, w: Worker)
    requires Staffed(s.mem.inflight, s.crew) && w in s.crew
    ensures w.Asking? && w.task in s.mem.inflight
  {
  }

  lemma SettleLeaves(max: nat, m: Mem, task: Task, a: Answer)
    requires m.asked.Keys == m.pages.Keys && Sized(KeyOf(task))
    ensures Settle(m, max, task, a).mem.inflight == m.inflight - {task}
  {
  }

  // ------------------------------------------------------------------ saving

  lemma CleanSaved(m: Mem, tail: seq<Task>)
    requires Clean(m) && CanSave(m) && Tail(m, tail)
    ensures CleanDisk(Disk(Pending(m, tail), m.done))
  {
    var ts, p := m.subq + tail, Pending(m, tail);
    forall t | t in m.subq ensures t !in tail {
    }
    DistinctConcat(m.subq, tail);
    forall i | 0 <= i < |p|
      ensures p[i].task == ts[i] && ts[i] in Live(m) && ts[i] in m.meta && p[i].meta == m.meta[ts[i]]
    {
      assert ts[i] in m.subq || ts[i] in tail;
    }
    forall i, j | 0 <= i < j < |p| ensures KeyOf(p[i].task) != KeyOf(p[j].task) {
      assert ts[i] != ts[j];
    }
    forall i, j | 0 <= i < |p| && 0 <= j < |p| && p[i].meta.role.Probe? && Beside(p[j].task, p[i].meta, p[j].meta)
      ensures p[j].meta.role.Rest?
    {
      assert IsProbe(m.meta, ts[i]);
    }
  }

  // ------------------------------------------------------------------ restarting

  lemma {:induction false} LoadDistinct(lines: seq<Owed>, done: set<Key>, m: Mem)
    requires Distinct(m.subq) && forall t :: t in m.subq <==> t in m.meta
    ensures var m' := LoadPending(lines, done, m);
      && Distinct(m'.subq) && (forall t :: t in m'.subq <==> t in m'.meta)
      && (forall t :: t in m'.subq && t !in m.subq ==> KeyOf(t) !in done)
  {
    if lines != [] {
      var Owed(task, meta) := lines[0];
      if KeyOf(task) !in done && task !in m.meta {
        DistinctConcat(m.subq, [task]);
        LoadDistinct(lines[1..], done, m.(subq := m.subq + [task], meta := m.meta[task := meta]));
      } else {
        LoadDistinct(lines[1..], done, m);
      }
    }
  }

  lemma {:induction false} NotDoneDistinct(tasks: seq<Task>, done: set<Key>)
    requires Distinct(tasks)
    ensures Distinct(NotDone(tasks, done))
  {
    if tasks != [] {
      assert tasks == [tasks[0]] + tasks[1..];
      NotDoneDistinct(tasks[1..], done);
      var rest := NotDone(tasks[1..], done);
      assert forall t :: t in rest ==> t in tasks[1..];
      DistinctConcat(if KeyOf(tasks[0]) in done then [] else [tasks[0]], rest);
    }
  }

  /** A clean file pair restarts as a clean lane. */
  lemma CleanRestart(d: Disk, plan: map<Unit, seq<Task>>)
    requires CleanDisk(d) && CleanPlan(plan)
    ensures Clean(Restart(d, plan))
  {
    var m := Restart(d, plan);
    RestartLoads(d, plan);
    LoadDistinct(d.pending, d.done, Reset(m.pages, m.asked));
    forall u | u in m.pages ensures Distinct(m.pages[u]) {
      NotDoneDistinct(plan[u], d.done);
    }
    RestartMetas(d, plan);
    RestartLive(d, plan);
    RestartSiblings(d, plan);
  }

  lemma RestartMetas(d: Disk, plan: map<Unit, seq<Task>>)
    requires CleanDisk(d)
    ensures var m := Restart(d, plan);
      && (forall t :: t in m.meta ==> Subpage(t, m.meta[t]) && m.meta[t].parent in d.done)
      && (forall t :: t in m.subq ==> t in m.meta)
  {
    var m := Restart(d, plan);
    RestartLoads(d, plan);
    LoadDistinct(d.pending, d.done, Reset(m.pages, m.asked));
    forall t | t in m.meta ensures Subpage(t, m.meta[t]) && m.meta[t].parent in d.done {
      var i :| 0 <= i < |d.pending| && d.pending[i] == Owed(t, m.meta[t]);
    }
  }

  lemma UnitsFromPlan(m: Mem, plan: map<Unit, seq<Task>>)
    requires GoodPlan(plan) && m.inflight == {} && m.asked.Keys == m.pages.Keys
    requires forall u :: u in plan ==> Distinct(plan[u])
    requires m.pages.Keys == plan.Keys && forall u :: u in plan ==> m.pages[u] == NotDone(plan[u], m.done)
    ensures GoodUnits(m)
  {
    forall u | u in m.pages ensures Distinct(m.pages[u]) {
      NotDoneDistinct(plan[u], m.done);
    }
    hide Distinct, Sized, Root;
    forall u, t | u in m.pages && t in m.pages[u] ensures InUnit(m, u, t) {
      assert m.pages[u] == NotDone(plan[u], m.done);
      assert t in plan[u] && KeyOf(t) !in m.done;
    }
  }

  lemma RestartUnits(d: Disk, plan: map<Unit, seq<Task>>)
    requires CleanPlan(plan)
    ensures GoodUnits(Restart(d, plan))
  {
    UnitsFromPlan(Restart(d, plan), plan);
  }

  lemma KeysDifferUnion(subs: set<Task>, roots: set<Task>)
    requires KeysDiffer(subs) && KeysDiffer(roots)
    requires (forall t :: t in subs ==> !Root(KeyOf(t))) && (forall t :: t in roots ==> Root(KeyOf(t)))
    ensures KeysDiffer(subs + roots)
  {
  }

  lemma RestartLive(d: Disk, plan: map<Unit, seq<Task>>)
    requires CleanDisk(d) && CleanPlan(plan)
    ensures var m := Restart(d, plan); KeysDiffer(Live(m)) && GoodUnits(m)
  {
    var m := Restart(d, plan);
    RestartUnits(d, plan);
    RestartMetas(d, plan);
    QueuedRoot(m);
    QueuedDiffer(d, plan);
    PendingDiffer(d, plan);
    KeysDifferUnion((set t | t in m.subq), Queued(m));
    assert Live(m) == (set t | t in m.subq) + Queued(m);
  }

  lemma QueuedDiffer(d: Disk, plan: map<Unit, seq<Task>>)
    requires CleanPlan(plan)
    ensures KeysDiffer(Queued(Restart(d, plan)))
  {
    var m := Restart(d, plan);
    forall t, w | t in Queued(m) && w in Queued(m) && KeyOf(t) == KeyOf(w) ensures t == w {
      var u :| u in m.pages && t in m.pages[u];
      var v :| v in m.pages && w in m.pages[v];
      assert t in plan[u] && w in plan[v];
    }
  }

  lemma PendingDiffer(d: Disk, plan: map<Unit, seq<Task>>)
    requires CleanDisk(d)
    ensures KeysDiffer(set t | t in Restart(d, plan).subq)
  {
    RestartLoads(d, plan);
    forall t, w | t in OwedOn(d) && w in OwedOn(d) && KeyOf(t) == KeyOf(w) ensures t == w {
      var i :| 0 <= i < |d.pending| && d.pending[i].task == t;
      var j :| 0 <= j < |d.pending| && d.pending[j].task == w;
    }
  }

  lemma RestartSiblings(d: Disk, plan: map<Unit, seq<Task>>)
    requires CleanDisk(d)
    ensures var m := Restart(d, plan); Siblings(Live(m), m.meta, m.probed)
  {
    var m := Restart(d, plan);
    RestartLoads(d, plan);
    forall t, u | t in Live(m) && u in Live(m) && IsProbe(m.meta, t) && u in m.meta && Beside(u, m.meta[t], m.meta[u])
      ensures m.meta[u].role.Rest? && m.meta[t].parent in m.probed
    {
      var i :| 0 <= i < |d.pending| && d.pending[i] == Owed(t, m.meta[t]);
      var j :| 0 <= j < |d.pending| && d.pending[j] == Owed(u, m.meta[u]);
    }
  }

  // ------------------------------------------------------------------ steps

  ghost predicate LeavesSubpages(task: Task, a: Answer)
    requires Sized(KeyOf(task))
  {
    !Whole(a) && Subpages(task, a.edge.Some?) != []
  }

  lemma AddedQueued(m: Mem, u: Unit, tasks: seq<Task>)
    requires u !in m.pages
    ensures forall t :: t in Queued(AddPages(m, u, tasks)) ==> t in Queued(m) || t in tasks
  {
    var m' := AddPages(m, u, tasks);
    forall t | t in Queued(m') ensures t in Queued(m) || t in tasks {
      var v :| v in m'.pages && t in m'.pages[v];
      if v != u { assert t in m.pages[v]; }
    }
  }

  lemma AddedQueues(m: Mem, u: Unit, tasks: seq<Task>)
    requires Clean(m) && u !in m.pages && GoodPlan(map[u := tasks]) && Distinct(tasks)
    requires forall t, w :: t in tasks && w in Live(m) ==> KeyOf(t) != KeyOf(w)
    ensures GoodQueues(AddPages(m, u, tasks))
  {
    var m' := AddPages(m, u, tasks);
    NotDoneDistinct(tasks, m.done);
    forall t | t in m'.inflight ensures InFlight(m', t) && t !in tasks {
      assert InFlight(m, t) && t in Live(m);
    }
    forall v, t | v in m'.pages && t in m'.pages[v] ensures InUnit(m', v, t) {
      if v != u { assert InUnit(m, v, t); } else { assert t in map[u := tasks][u]; }
    }
  }

  lemma CleanAddPages(m: Mem, u: Unit, tasks: seq<Task>)
    requires Clean(m) && u !in m.pages && CleanPlan(map[u := tasks])
    requires forall t, w :: t in tasks && w in Live(m) ==> KeyOf(t) != KeyOf(w)
    ensures Clean(AddPages(m, u, tasks))
  {
    hide NotDone, Parent, Distinct;
    assert tasks == map[u := tasks][u];
    AddedQueues(m, u, tasks);
    AddedQueued(m, u, tasks);
    assert forall t :: t in Live(AddPages(m, u, tasks)) ==> t in Live(m) || t in tasks;
    forall t | t in tasks ensures t !in m.meta {
      assert t in map[u := tasks][u];
      assert t in m.meta ==> Subpage(t, m.meta[t]);
    }
  }

  /** A settle that writes: the whole new lane and files. */
  lemma SettleShape(idx: Index, max: nat, s: Sys, step: Step)
    requires step.Settles? && s.mem.asked.Keys == s.mem.pages.Keys && Enabled(idx, max, s, step)
    requires var e := Settle(s.mem, max, step.task, step.a); Writes(e.outcome) && CanSave(e.mem)
    ensures var e := Settle(s.mem, max, step.task, step.a);
      var done := if e.outcome.Booked? then {KeyOf(step.task)} else {};
      var s' := Apply(idx, max, s, step);
      && s'.mem == e.mem.(done := e.mem.done + done)
      && s'.disk == Disk(Pending(e.mem, step.tail), s.disk.done + done)
      && s'.crew == s.crew - multiset{Asking(step.task)}
  {
  }

  lemma CleanFiles(s: Sys, m: Mem, k: Key, done: set<Key>, tail: seq<Task>, s': Sys)
    requires CleanSys(s) && Clean(m) && m.done == s.mem.done + done && done <= {k}
    requires Sized(k) && !Root(k) ==> Parent(k) in s.mem.done
    requires Tail(m, tail) && s'.mem == m && s'.disk == Disk(Pending(m, tail), m.done)
    requires Staffed(m.inflight, s'.crew)
    ensures CleanSys(s')
  {
    CleanSaved(m, tail);
  }

  lemma CleanOutcome(max: nat, m: Mem, task: Task, a: Answer)
    requires Clean(m) && task in m.inflight && Sized(KeyOf(task))
    ensures var e := Settle(m, max, task, a);
      && Writes(e.outcome) && e.mem.done == m.done && CanSave(e.mem)
      && Clean(e.mem.(done := e.mem.done + if e.outcome.Booked? then {KeyOf(task)} else {}))
  {
    hide Live, GoodLive;
    NeverRaises(max, m, task, a);
    var e := Settle(m, max, task, a);
    if Answered(m, task, a) {
      CleanBooked(m, task, a);
      CleanCanSave(e.mem.(done := e.mem.done + {KeyOf(task)}));
    } else {
      CleanUnanswered(max, m, task, a);
      assert e.mem.done + {} == e.mem.done;
    }
  }

  lemma CleanSettle(idx: Index, max: nat, s: Sys, step: Step)
    requires CleanSys(s) && step.Settles? && Enabled(idx, max, s, step)
    ensures CleanSys(Apply(idx, max, s, step)) && !LosesTask(max, s, step)
  {
    var Settles(task, a, tail) := step;
    var e := Settle(s.mem, max, task, a);
    Holds(s, Asking(task));
    CleanOutcome(max, s.mem, task, a);
    SettleShape(idx, max, s, step);
    SettleLeaves(max, s.mem, task, a);
    LeftStaffed(s.mem.inflight, s.crew, task);
    if !Root(KeyOf(task)) { LiveChild(s.mem, task); }
    var done := if e.outcome.Booked? then {KeyOf(task)} else {};
    CleanFiles(s, e.mem.(done := e.mem.done + done), KeyOf(task), done, tail, Apply(idx, max, s, step));
  }

  /** What the files hold between the rewrite of `pending.txt` and the append to `done.txt`. */
  function WindowDisk(max: nat, s: Sys, task: Task, a: Answer, tail: seq<Task>): Disk
    requires s.mem.asked.Keys == s.mem.pages.Keys && Sized(KeyOf(task))
    requires var e := Settle(s.mem, max, task, a); CanSave(e.mem) && Tail(e.mem, tail)
  {
    Disk(Pending(Settle(s.mem, max, task, a).mem, tail), s.disk.done)
  }

  /** A kill inside a settle leaves a clean start exactly when the answer left no subpages. */
  lemma WindowKillClean(idx: Index, max: nat, s: Sys, step: Step)
    requires CleanSys(s) && step.KillInSettle? && Enabled(idx, max, s, step) && CleanPlan(step.plan)
    ensures CleanSys(Apply(idx, max, s, step)) <==> !LeavesSubpages(step.task, step.a)
  {
    var KillInSettle(task, a, tail, plan) := step;
    var e := Settle(s.mem, max, task, a);
    var d := WindowDisk(max, s, task, a, tail);
    Holds(s, Asking(task));
    NobodyStaffed();
    hide Staffed;
    if LeavesSubpages(task, a) {
      WindowUnclean(max, s, task, a, tail, plan);
    } else {
      CleanUnfolded(s.mem, task, a);
      SplitIsAdded(s.mem, task, a);
      WindowParents(s.mem, task, a, tail);
      CleanRestart(d, plan);
    }
  }

  lemma WindowUnclean(max: nat, s: Sys, task: Task, a: Answer, tail: seq<Task>, plan: map<Unit, seq<Task>>)
    requires CleanSys(s) && task in s.mem.inflight && Sized(KeyOf(task)) && LeavesSubpages(task, a)
    requires var e := Settle(s.mem, max, task, a); e.outcome.Booked? && CanSave(e.mem) && Tail(e.mem, tail)
    ensures !Clean(Restart(WindowDisk(max, s, task, a, tail), plan))
  {
    hide Live, GoodLive, Split;
    var e, d, cut := Settle(s.mem, max, task, a), WindowDisk(max, s, task, a, tail), a.edge.Some?;
    var x := Subpages(task, cut)[0];
    WalkSettle.SubpageOf(task, cut, x);
    assert InFlight(s.mem, task);
    WalkSettle.SplitOwed(s.mem, task, a);
    SavedOwed(e.mem, tail, d);
    RestartLoads(d, plan);
    assert KeyOf(x) !in d.done;
    assert x in OwedBy(Restart(d, plan));
    LoadedMeta(d, plan, x);
  }

  lemma LoadedMeta(d: Disk, plan: map<Unit, seq<Task>>, x: Task)
    requires x in Restart(d, plan).meta && !Root(KeyOf(x)) && Parent(KeyOf(x)) !in d.done
    ensures !Clean(Restart(d, plan))
  {
    var m := Restart(d, plan);
    RestartLoads(d, plan);
    assert x in Live(m);
    assert !GoodMetas(m.meta) || !ParentsBooked(Live(m), m.meta, m.done);
  }

  lemma WindowParents(m: Mem, task: Task, a: Answer, tail: seq<Task>)
    requires Clean(m) && task in m.inflight && !PruneRaises(m, task, a) && Sized(KeyOf(task))
    requires !LeavesSubpages(task, a)
    requires CanSave(Split(m, task, a)) && Tail(Split(m, task, a), tail)
    ensures CleanDisk(Disk(Pending(Split(m, task, a), tail), m.done))
  {
    hide Live, Unfolded, Clean;
    var b, m' := Unfolded(m, task, a), Split(m, task, a);
    CleanUnfolded(m, task, a);
    SplitIsAdded(m, task, a);
    CleanSaved(b, tail);
    var p := Pending(m', tail);
    assert p == Pending(b, tail);
    forall i | 0 <= i < |p| ensures p[i].meta.parent in m.done {
      var t := p[i].task;
      assert t == (m'.subq + tail)[i] && (t in m'.subq || t in tail);
      UnfoldedParents(m, task, a, t);
    }
  }

  lemma UnfoldedParents(m: Mem, task: Task, a: Answer, t: Task)
    requires Clean(m) && task in m.inflight && !PruneRaises(m, task, a) && Sized(KeyOf(task))
    requires var b := Unfolded(m, task, a); t in b.meta && (t in b.subq || t in b.inflight)
    ensures Unfolded(m, task, a).meta[t].parent in m.done
  {
    if Opens(m, task, a) && t in RestOf(task) {
      assert task in Live(m);
    } else {
      assert t in Live(m) && t in m.meta;
    }
  }

  /** A step the lane itself never makes unclean: the plans it is given queue no slice twice, and no
      kill falls between the two writes of a booking that leaves subpages. */
  ghost predicate CleanStep(s: Sys, step: Step) {
    match step
    case Adds(u, tasks) =>
      CleanPlan(map[u := tasks]) && forall t, w :: t in tasks && w in Live(s.mem) ==> KeyOf(t) != KeyOf(w)
    case Kill(plan) => CleanPlan(plan)
    case KillInSettle(task, a, _, plan) =>
      CleanPlan(plan) && Sized(KeyOf(task)) && !LeavesSubpages(task, a)
    case _ => true
  }

  lemma CleanSysStep(idx: Index, max: nat, s: Sys, step: Step)
    requires CleanSys(s) && Enabled(idx, max, s, step) && CleanStep(s, step)
    ensures CleanSys(Apply(idx, max, s, step)) && !LosesTask(max, s, step)
  {
    hide Staffed;
    match step
    case Takes(early, units) =>
      CleanTake(s.mem, early, units);
      TakeHires(s.mem, early, units);
      HiredStaffed(s.mem.inflight, s.crew, Take(s.mem, early, units).1);
    case Asks(_, _, _) =>
    case Settles(_, _, _) => CleanSettle(idx, max, s, step);
    case AskFails(task, raised, tail) =>
      Holds(s, if raised then Raised(task) else Asking(task));
      NeverRaises(max, s.mem, task, Answer(Ok, true, 0, None));
      CleanRequeue(s.mem, task, true);
      CleanSaved(Requeue(s.mem, task, true).mem, tail);
      LeftStaffed(s.mem.inflight, s.crew, task);
    case Adds(u, tasks) => CleanAddPages(s.mem, u, tasks);
    case Kill(plan) =>
      CleanRestart(s.disk, plan);
      NobodyStaffed();
    case KillInSettle(_, _, _, _) => WindowKillClean(idx, max, s, step);
  }

  lemma InitialClean(s: Sys)
    requires Initial(s) && CleanPlan(s.mem.pages)
    ensures CleanSys(s)
  {
    NobodyStaffed();
    hide Staffed;
    forall u, t | u in s.mem.pages && t in s.mem.pages[u] ensures InUnit(s.mem, u, t) {
    }
    forall t, w | t in Live(s.mem) && w in Live(s.mem) && KeyOf(t) == KeyOf(w) ensures t == w {
      var u :| u in s.mem.pages && t in s.mem.pages[u];
      var v :| v in s.mem.pages && w in s.mem.pages[v];
    }
  }
}
