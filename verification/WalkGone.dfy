/** Slices killed in the window of their booking that can never be asked again: in no file, in no queue, and
    the lane as clean as if they were booked. */
module WalkGone {
  import opened Strings
  import opened CdxIndex
  import opened WalkState
  import opened WalkSystem
  import opened WalkCoverage
  import opened WalkRuns
  import opened WalkClean
  import opened WalkCleanRuns
  import WalkSettle

  // ------------------------------------------------------------------ as if booked

  function Past(m: Mem, gone: set<Key>): Mem {
    m.(done := m.done + gone)
  }

  function PastDisk(d: Disk, gone: set<Key>): Disk {
    d.(done := d.done + gone)
  }

  function PastSys(s: Sys, gone: set<Key>): Sys {
    s.(mem := Past(s.mem, gone), disk := PastDisk(s.disk, gone))
  }

  ghost predicate GoneKeys(gone: set<Key>) {
    forall k :: k in gone ==> Sized(k) && !Root(k)
  }

  /** A probe under this page would queue a gone slice again. */
  ghost predicate Reopens(gone: set<Key>, page: Key) {
    exists k :: k in gone && k.page.Number? && Parent(k) == page && k.page.n % 10 in REST
  }

  /** The slice has a row, so an answer to it can show one. */
  ghost predicate HasRow(idx: Index, k: Key) {
    exists r: RowId :: InSlice(idx, k, r)
  }

  /** A probe that an honest answer can show a row of. */
  ghost predicate CanOpen(idx: Index, meta: map<Task, Meta>, t: Task) {
    IsProbe(meta, t) && HasRow(idx, KeyOf(t))
  }

  lemma OpensHasRow(idx: Index, h: History, m: Mem, task: Task, a: Answer)
    requires Opens(m, task, a) && Journaled(idx, h, KeyOf(task), a)
    ensures CanOpen(idx, m.meta, task)
  {
    var lo: nat :| Honest(idx, KeyOf(task), a, lo);
    assert InSlice(idx, KeyOf(task), RowId(ViewOf(KeyOf(task)), lo));
  }

  ghost predicate ApartMem(idx: Index, m: Mem, gone: set<Key>) {
    && (forall t :: t in Live(m) ==> KeyOf(t) !in gone)
    && (forall t :: t in Live(m) && CanOpen(idx, m.meta, t) ==> !Reopens(gone, m.meta[t].parent))
  }

  ghost predicate ApartLine(idx: Index, o: Owed, gone: set<Key>) {
    KeyOf(o.task) !in gone && (o.meta.role.Probe? && HasRow(idx, KeyOf(o.task)) ==> !Reopens(gone, o.meta.parent))
  }

  ghost predicate ApartDisk(idx: Index, d: Disk, gone: set<Key>) {
    forall i :: 0 <= i < |d.pending| ==> ApartLine(idx, d.pending[i], gone)
  }

  /** Lane and files are as clean as if the gone slices were booked, and nothing live is one or brings one
      back. */
  ghost predicate CleanPast(idx: Index, s: Sys, gone: set<Key>) {
    CleanSys(PastSys(s, gone)) && ApartMem(idx, s.mem, gone) && ApartDisk(idx, s.disk, gone) && GoneKeys(gone)
  }

  // ------------------------------------------------------------------ no call tells the difference

  lemma {:induction false} TakeSubPast(m: Mem, gone: set<Key>)
    requires forall t :: t in m.subq ==> KeyOf(t) !in gone
    ensures TakeSub(Past(m, gone)) == (Past(TakeSub(m).0, gone), TakeSub(m).1)
    decreases |m.subq|
  {
    if m.subq != [] {
      assert m.subq[0] in m.subq;
      if KeyOf(m.subq[0]) in m.done {
        TakeSubPast(m.(subq := m.subq[1..], meta := m.meta - {m.subq[0]}), gone);
      }
    }
  }

  lemma {:induction false} PopPast(m: Mem, gone: set<Key>, units: seq<Unit>)
    requires m.asked.Keys == m.pages.Keys && forall u :: u in units ==> u in m.pages
    ensures Pop(Past(m, gone), units) == (Past(Pop(m, units).0, gone), Pop(m, units).1)
  {
    if units != [] && m.pages[units[0]] == [] { PopPast(m, gone, units[1..]); }
  }

  lemma TakePast(m: Mem, gone: set<Key>, early: seq<Unit>, units: seq<Unit>)
    requires m.asked.Keys == m.pages.Keys && forall u :: u in early + units ==> u in m.pages
    requires forall t :: t in m.subq ==> KeyOf(t) !in gone
    ensures Take(Past(m, gone), early, units) == (Past(Take(m, early, units).0, gone), Take(m, early, units).1)
  {
    assert forall u :: u in early || u in units ==> u in early + units;
    PopPast(m, gone, early);
    TakeSubPast(m, gone);
    PopPast(TakeSub(m).0, gone, units);
  }

  lemma SettlePast(max: nat, m: Mem, gone: set<Key>, task: Task, a: Answer)
    requires m.asked.Keys == m.pages.Keys && Sized(KeyOf(task))
    ensures var e := Settle(m, max, task, a);
      Settle(Past(m, gone), max, task, a) == Effect(Past(e.mem, gone), e.outcome)
  {
    hide DropLower, WithMeta, Subpages, RestOf, KeyOf;
    if Answered(m, task, a) {
      if !PruneRaises(m, task, a) { SettlePastSplit(m, gone, task, a); }
      hide Split;
    }
  }

  lemma {:induction false} LoadPast(lines: seq<Owed>, done: set<Key>, gone: set<Key>, m: Mem)
    requires forall i :: 0 <= i < |lines| ==> KeyOf(lines[i].task) !in gone
    ensures LoadPending(lines, done + gone, m) == LoadPending(lines, done, m)
  {
    if lines != [] {
      var Owed(task, meta) := lines[0];
      var m1 := if KeyOf(task) !in done && task !in m.meta
        then m.(subq := m.subq + [task], meta := m.meta[task := meta]) else m;
      LoadPast(lines[1..], done, gone, m1);
    }
  }

  lemma {:induction false} NotDonePast(tasks: seq<Task>, done: set<Key>, gone: set<Key>)
    requires forall t :: t in tasks ==> KeyOf(t) !in gone
    ensures NotDone(tasks, done + gone) == NotDone(tasks, done)
  {
    if tasks != [] {
      assert tasks[0] in tasks;
      NotDonePast(tasks[1..], done, gone);
    }
  }

  function Left(plan: map<Unit, seq<Task>>, done: set<Key>): map<Unit, seq<Task>> {
    map u | u in plan :: NotDone(plan[u], done)
  }

  function Answers(plan: map<Unit, seq<Task>>, done: set<Key>): map<Unit, int> {
    map u | u in plan :: |plan[u]| - |NotDone(plan[u], done)|
  }

  lemma LeftPast(plan: map<Unit, seq<Task>>, done: set<Key>, gone: set<Key>)
    requires GoodPlan(plan) && GoneKeys(gone)
    ensures Left(plan, done + gone) == Left(plan, done) && Answers(plan, done + gone) == Answers(plan, done)
  {
    hide NotDone, GoodPlan, GoneKeys;
    forall u | u in plan ensures NotDone(plan[u], done + gone) == NotDone(plan[u], done) {
      RootsPast(plan, done, gone, u);
    }
    assert Left(plan, done + gone) == Left(plan, done);
    assert Answers(plan, done + gone) == Answers(plan, done);
  }

  lemma RootsPast(plan: map<Unit, seq<Task>>, done: set<Key>, gone: set<Key>, u: Unit)
    requires GoodPlan(plan) && GoneKeys(gone) && u in plan
    ensures NotDone(plan[u], done + gone) == NotDone(plan[u], done)
  {
    NotDonePast(plan[u], done, gone);
  }

  lemma RestartIs(d: Disk, plan: map<Unit, seq<Task>>)
    ensures var m := LoadPending(d.pending, d.done, Reset(Left(plan, d.done), Answers(plan, d.done)));
      Restart(d, plan) ==
        m.(done := d.done, probed := set t | t in m.meta && m.meta[t].role.Rest? :: m.meta[t].parent)
  {
  }

  lemma RestartPast(d: Disk, gone: set<Key>, plan: map<Unit, seq<Task>>)
    requires forall i :: 0 <= i < |d.pending| ==> KeyOf(d.pending[i].task) !in gone
    requires GoodPlan(plan) && GoneKeys(gone)
    ensures Restart(PastDisk(d, gone), plan) == Past(Restart(d, plan), gone)
  {
    hide Restart, LoadPending, Left, Answers, GoodPlan, GoneKeys;
    LeftPast(plan, d.done, gone);
    LoadPast(d.pending, d.done, gone, Reset(Left(plan, d.done), Answers(plan, d.done)));
    RestartIs(d, plan);
    RestartIs(PastDisk(d, gone), plan);
  }

  lemma AddPagesPast(m: Mem, gone: set<Key>, u: Unit, tasks: seq<Task>)
    requires GoodPlan(map[u := tasks]) && GoneKeys(gone)
    ensures AddPages(Past(m, gone), u, tasks) == Past(AddPages(m, u, tasks), gone)
  {
    assert tasks == map[u := tasks][u];
    NotDonePast(tasks, m.done, gone);
  }

  // ------------------------------------------------------------------ nothing live is gone

  /** What the queues gain from a booked answer: the opened siblings and the new subpages. */
  lemma SplitLive(m: Mem, task: Task, a: Answer, t: Task)
    requires Clean(m) && task in m.inflight && !PruneRaises(m, task, a) && Sized(KeyOf(task))
    requires t in Live(Split(m, task, a))
    ensures var m' := Split(m, task, a);
      || (!Whole(a) && t in Subpages(task, a.edge.Some?) && t in m'.meta && m'.meta[t] == SubMeta(task, a))
      || (Opens(m, task, a) && t in RestOf(task) && t in m'.meta && m'.meta[t].role.Rest?)
      || (t in Live(m) && t != task && (t in m'.meta ==> t in m.meta && m'.meta[t] == m.meta[t]))
  {
    hide Clean;
    var b, m' := Unfolded(m, task, a), Split(m, task, a);
    CleanBase(m, task, a);
    SplitIsAdded(m, task, a);
    assert Live(m') == Live(m'.(done := m'.done + {KeyOf(task)})) by {
      assert Queued(m') == Queued(m'.(done := m'.done + {KeyOf(task)}));
    }
    if !(!Whole(a) && t in Subpages(task, a.edge.Some?)) {
      assert t in Live(b) by { LiveOfAdded(m, task, a, t); }
      UnfoldedLive(m, task, a, t);
    }
  }

  lemma LiveOfAdded(m: Mem, task: Task, a: Answer, t: Task)
    requires Sized(KeyOf(task)) && !PruneRaises(m, task, a) && t in Live(Split(m, task, a))
    ensures t in Live(Unfolded(m, task, a)) || (!Whole(a) && t in Subpages(task, a.edge.Some?))
  {
    SplitIsAdded(m, task, a);
    assert Queued(Split(m, task, a)) == Queued(Unfolded(m, task, a));
  }

  lemma UnfoldedLive(m: Mem, task: Task, a: Answer, t: Task)
    requires Sized(KeyOf(task)) && !PruneRaises(m, task, a) && t in Live(Unfolded(m, task, a))
    requires Live(Base(m, task, a)) <= Live(m) - {task}
    ensures (Opens(m, task, a) && t in RestOf(task)) || (t in Live(m) && t != task)
  {
    assert Queued(Unfolded(m, task, a)) == Queued(Base(m, task, a));
  }

  /** A page being answered has no gone subpage, and a live probe brings no gone one back. */
  lemma FreshFromGone(idx: Index, s: Sys, gone: set<Key>, task: Task)
    requires CleanPast(idx, s, gone) && task in s.mem.inflight
    ensures KeyOf(task) !in s.mem.done + gone && !Reopens(gone, KeyOf(task))
    ensures forall c :: c in gone ==> Parent(c) != KeyOf(task)
  {
    var m := Past(s.mem, gone);
    assert InFlight(m, task);
    forall c | c in gone ensures Parent(c) != KeyOf(task) {
      assert c in PastSys(s, gone).mem.done && Sized(c) && !Root(c);
    }
  }

  /** A booked answer queues nothing that is gone. */
  lemma SplitApart(idx: Index, s: Sys, gone: set<Key>, task: Task, a: Answer)
    requires CleanPast(idx, s, gone) && task in s.mem.inflight && !PruneRaises(s.mem, task, a) && Sized(KeyOf(task))
    requires Journaled(idx, s.now, KeyOf(task), a)
    ensures ApartMem(idx, Split(s.mem, task, a), gone)
  {
    var m, m' := s.mem, Split(s.mem, task, a);
    SettlePastSplit(m, gone, task, a);
    FreshFromGone(idx, s, gone, task);
    forall t | t in Live(m')
      ensures KeyOf(t) !in gone && (CanOpen(idx, m'.meta, t) ==> !Reopens(gone, m'.meta[t].parent))
    {
      LivePast(m, gone);
      LivePast(m', gone);
      SplitLive(Past(m, gone), task, a, t);
      if !Whole(a) && t in Subpages(task, a.edge.Some?) {
        WalkSettle.SubpageOf(task, a.edge.Some?, t);
      } else if Opens(m, task, a) && t in RestOf(task) {
        OpenedApart(idx, s, gone, task, a, t);
      }
    }
  }

  lemma RestIs(task: Task, v: Meta, t: Task)
    requires Subpage(task, v) && t in RestOf(task)
    ensures t.page.Number? && t.page.n % 10 in REST && Parent(KeyOf(t)) == v.parent
  {
    var i :| 0 <= i < |REST| && t == RestOf(task)[i];
    assert t.page.n % 10 == REST[i] && t.page.n / 10 == task.page.n / 10;
  }

  lemma OpenedApart(idx: Index, s: Sys, gone: set<Key>, task: Task, a: Answer, t: Task)
    requires CleanPast(idx, s, gone) && task in s.mem.inflight && Opens(s.mem, task, a) && t in RestOf(task)
    requires Journaled(idx, s.now, KeyOf(task), a)
    ensures KeyOf(t) !in gone
  {
    var m := Past(s.mem, gone);
    OpensHasRow(idx, s.now, s.mem, task, a);
    assert Subpage(task, m.meta[task]) && task in Live(s.mem);
    hide CleanSys, Live, RestOf, Subpage, Parent, Journaled, HasRow;
    RestIs(task, m.meta[task], t);
    assert !Reopens(gone, s.mem.meta[task].parent);
  }

  lemma LivePast(m: Mem, gone: set<Key>)
    ensures Live(Past(m, gone)) == Live(m)
  {
    assert Queued(Past(m, gone)) == Queued(m);
  }

  lemma SettlePastSplit(m: Mem, gone: set<Key>, task: Task, a: Answer)
    requires !PruneRaises(m, task, a) && Sized(KeyOf(task))
    ensures !PruneRaises(Past(m, gone), task, a) && Split(Past(m, gone), task, a) == Past(Split(m, task, a), gone)
    ensures Opens(Past(m, gone), task, a) == Opens(m, task, a)
  {
    hide DropLower, WithMeta, Subpages, RestOf;
    assert Pruned(Past(m, gone), task, a) == Past(Pruned(m, task, a), gone);
    assert OpenRest(Past(m, gone), task, a) == Past(OpenRest(m, task, a), gone);
  }

  lemma SavedApart(idx: Index, m: Mem, gone: set<Key>, tail: seq<Task>, done: set<Key>)
    requires ApartMem(idx, m, gone) && CanSave(m) && Tail(m, tail)
    ensures ApartDisk(idx, Disk(Pending(m, tail), done), gone)
  {
    var ts, p := m.subq + tail, Pending(m, tail);
    forall i | 0 <= i < |p| ensures ApartLine(idx, p[i], gone) {
      assert ts[i] in m.subq || ts[i] in tail;
      assert ts[i] in Live(m);
    }
  }

  /** A restart from files apart is a lane apart: what it queues besides are roots. */
  lemma RestartApart(idx: Index, d: Disk, gone: set<Key>, plan: map<Unit, seq<Task>>)
    requires ApartDisk(idx, d, gone) && GoodPlan(plan) && GoneKeys(gone)
    ensures ApartMem(idx, Restart(d, plan), gone)
    ensures Restart(PastDisk(d, gone), plan) == Past(Restart(d, plan), gone)
  {
    var m := Restart(d, plan);
    RestartLoads(d, plan);
    forall i | 0 <= i < |d.pending| ensures KeyOf(d.pending[i].task) !in gone {
      assert ApartLine(idx, d.pending[i], gone);
    }
    RestartPast(d, gone, plan);
    forall t | t in Live(m) ensures KeyOf(t) !in gone {
      if t in m.subq {
        var i :| 0 <= i < |d.pending| && d.pending[i].task == t;
      } else {
        var u :| u in m.pages && t in m.pages[u];
        assert t in plan[u];
      }
    }
    forall t | t in Live(m) && CanOpen(idx, m.meta, t) ensures !Reopens(gone, m.meta[t].parent) {
      var i :| 0 <= i < |d.pending| && d.pending[i] == Owed(t, m.meta[t]);
      assert ApartLine(idx, d.pending[i], gone);
    }
  }

  lemma FewerApart(idx: Index, m: Mem, gone: set<Key>, m': Mem)
    requires ApartMem(idx, m, gone) && Live(m') <= Live(m)
    requires forall t :: t in Live(m') && t in m'.meta ==> t in m.meta && m'.meta[t] == m.meta[t]
    ensures ApartMem(idx, m', gone)
  {
  }

  // ------------------------------------------------------------------ every step

  lemma ChangedPast(max: nat, s: Sys, gone: set<Key>, task: Task, a: Answer)
    requires s.mem.asked.Keys == s.mem.pages.Keys && Sized(KeyOf(task))
    ensures Changed(PastSys(s, gone), task, a, Settle(Past(s.mem, gone), max, task, a)) ==
            PastSys(Changed(s, task, a, Settle(s.mem, max, task, a)), gone)
  {
    SettlePast(max, s.mem, gone, task, a);
    hide Settle;
  }

  lemma SavePast(s: Sys, gone: set<Key>, tail: seq<Task>)
    requires CanSave(s.mem) ==> Tail(s.mem, tail)
    ensures Save(PastSys(s, gone), tail) == PastSys(Save(s, tail), gone)
  {
  }

  lemma BookPast(s: Sys, gone: set<Key>, k: Key)
    ensures BookKey(PastSys(s, gone), k) == PastSys(BookKey(s, k), gone)
  {
    assert s.mem.done + gone + {k} == s.mem.done + {k} + gone;
    assert s.disk.done + gone + {k} == s.disk.done + {k} + gone;
  }

  /** A worker's task is in flight. */
  lemma PastHolds(idx: Index, s: Sys, gone: set<Key>, w: Worker)
    requires CleanPast(idx, s, gone) && w in s.crew
    ensures w.Asking? && w.task in s.mem.inflight && s.mem.asked.Keys == s.mem.pages.Keys
  {
    hide ApartMem, ApartDisk;
    Holds(PastSys(s, gone), w);
  }

  lemma AfterSettlePast(s: Sys, gone: set<Key>, task: Task, a: Answer, e: Effect, tail: seq<Task>)
    requires Sized(KeyOf(task)) && (CanSave(e.mem) ==> Tail(e.mem, tail))
    requires Changed(PastSys(s, gone), task, a, Effect(Past(e.mem, gone), e.outcome)) ==
             PastSys(Changed(s, task, a, e), gone)
    ensures AfterSettle(PastSys(s, gone), task, a, Effect(Past(e.mem, gone), e.outcome), tail) ==
            PastSys(AfterSettle(s, task, a, e, tail), gone)
  {
    hide Note;
    var s1 := Leave(Changed(s, task, a, e), Asking(task));
    SavePast(s1, gone, tail);
    BookPast(Save(s1, tail), gone, KeyOf(task));
  }

  lemma SettlesPast(idx: Index, max: nat, s: Sys, step: Step, gone: set<Key>)
    requires s.mem.asked.Keys == s.mem.pages.Keys && step.Settles? && Enabled(idx, max, s, step)
    ensures Enabled(idx, max, PastSys(s, gone), step)
    ensures Apply(idx, max, PastSys(s, gone), step) == PastSys(Apply(idx, max, s, step), gone)
  {
    var Settles(task, a, tail) := step;
    SettlePast(max, s.mem, gone, task, a);
    ChangedPast(max, s, gone, task, a);
    hide Settle, Note, AfterSettle, Journaled;
    AfterSettlePast(s, gone, task, a, Settle(s.mem, max, task, a), tail);
  }

  lemma ApartDone(idx: Index, m: Mem, gone: set<Key>, done: set<Key>)
    requires ApartMem(idx, m, gone)
    ensures ApartMem(idx, m.(done := done), gone)
  {
    assert Queued(m.(done := done)) == Queued(m);
  }

  lemma UnansweredApart(idx: Index, max: nat, s: Sys, gone: set<Key>, task: Task, a: Answer)
    requires CleanPast(idx, s, gone) && task in s.mem.inflight
    ensures ApartMem(idx, Unanswered(s.mem, max, task, a).mem, gone)
  {
    var m, e := s.mem, Unanswered(s.mem, max, task, a);
    CleanUnanswered(max, Past(m, gone), task, a);
    SettlePastUnanswered(max, m, gone, task, a);
    hide Unanswered;
    LivePast(e.mem, gone);
    LivePast(m, gone);
    FewerApart(idx, m, gone, e.mem);
  }

  lemma RequeuePast(m: Mem, gone: set<Key>, task: Task, front: bool)
    requires m.asked.Keys == m.pages.Keys
    ensures var e := Requeue(m, task, front);
      Requeue(Past(m, gone), task, front) == Effect(Past(e.mem, gone), e.outcome)
  {
  }

  lemma SettlePastUnanswered(max: nat, m: Mem, gone: set<Key>, task: Task, a: Answer)
    requires m.asked.Keys == m.pages.Keys
    ensures Unanswered(Past(m, gone), max, task, a).mem == Past(Unanswered(m, max, task, a).mem, gone)
  {
    hide Requeue, Slower, ToFront;
    var m1 := m.(fails := m.fails[KeyOf(task) := Fails(m, KeyOf(task)) + 1]);
    RequeuePast(m1.(pace := Slower(m.pace, max, a.status)), gone, task, ToFront(m.pace, max, a.status));
  }

  /** The lane after the changes of a settle: nothing gone, and it can be listed. */
  lemma SettleApart(idx: Index, max: nat, s: Sys, gone: set<Key>, task: Task, a: Answer)
    requires CleanPast(idx, s, gone) && task in s.mem.inflight && Sized(KeyOf(task))
    requires Journaled(idx, s.now, KeyOf(task), a)
    ensures var e := Settle(s.mem, max, task, a); ApartMem(idx, e.mem, gone) && CanSave(e.mem) && Writes(e.outcome)
  {
    SettlePast(max, s.mem, gone, task, a);
    CleanOutcome(max, Past(s.mem, gone), task, a);
    if Answered(s.mem, task, a) {
      SplitApart(idx, s, gone, task, a);
    } else {
      UnansweredApart(idx, max, s, gone, task, a);
    }
  }

  lemma SettlesClean(idx: Index, max: nat, s: Sys, step: Step, gone: set<Key>)
    requires CleanPast(idx, s, gone) && step.Settles? && Enabled(idx, max, s, step)
    ensures CleanPast(idx, Apply(idx, max, s, step), gone)
  {
    var Settles(task, a, tail) := step;
    PastHolds(idx, s, gone, Asking(task));
    SettlesPast(idx, max, s, step, gone);
    CleanSettle(idx, max, PastSys(s, gone), step);
    SettleApart(idx, max, s, gone, task, a);
    SettleShape(idx, max, s, step);
    hide Settle, CleanSys, ApartMem, ApartDisk;
    var e, s' := Settle(s.mem, max, task, a), Apply(idx, max, s, step);
    ApartDone(idx, e.mem, gone, s'.mem.done);
    SavedApart(idx, e.mem, gone, tail, s'.disk.done);
  }

  lemma AskFailsClean(idx: Index, max: nat, s: Sys, step: Step, gone: set<Key>)
    requires CleanPast(idx, s, gone) && step.AskFails? && Enabled(idx, max, s, step)
    ensures CleanPast(idx, Apply(idx, max, s, step), gone)
  {
    hide GoneKeys, Settle, InSlice, Staffed;
    var AskFails(task, raised, tail) := step;
    PastHolds(idx, s, gone, if raised then Raised(task) else Asking(task));
    var p, e := Past(s.mem, gone), Requeue(s.mem, task, true);
    assert Requeue(p, task, true) == Effect(Past(e.mem, gone), e.outcome);
    CleanRequeue(p, task, true);
    NeverRaises(max, p, task, Answer(Ok, true, 0, None));
    CleanCanSave(Past(e.mem, gone));
    CleanSysStep(idx, max, PastSys(s, gone), step);
    SavePast(s.(mem := e.mem), gone, tail);
    LivePast(s.mem, gone);
    LivePast(e.mem, gone);
    FewerApart(idx, s.mem, gone, e.mem);
    SavedApart(idx, e.mem, gone, tail, s.disk.done);
  }

  lemma TakesClean(idx: Index, max: nat, s: Sys, step: Step, gone: set<Key>)
    requires CleanPast(idx, s, gone) && step.Takes? && Enabled(idx, max, s, step)
    ensures CleanPast(idx, Apply(idx, max, s, step), gone)
  {
    hide Staffed;
    var Takes(early, units) := step;
    var m' := Take(s.mem, early, units).0;
    assert forall t :: t in s.mem.subq ==> t in Live(s.mem);
    TakePast(s.mem, gone, early, units);
    CleanTake(Past(s.mem, gone), early, units);
    TakeHires(Past(s.mem, gone), early, units);
    HiredStaffed(s.mem.inflight, s.crew, Take(s.mem, early, units).1);
    LivePast(s.mem, gone);
    LivePast(m', gone);
    FewerApart(idx, s.mem, gone, m');
  }

  lemma AddsApart(idx: Index, s: Sys, gone: set<Key>, u: Unit, tasks: seq<Task>)
    requires ApartMem(idx, s.mem, gone) && GoneKeys(gone) && GoodMetas(s.mem.meta)
    requires u !in s.mem.pages && GoodPlan(map[u := tasks])
    ensures ApartMem(idx, AddPages(s.mem, u, tasks), gone)
  {
    var m' := AddPages(s.mem, u, tasks);
    AddedQueued(s.mem, u, tasks);
    forall t | t in tasks ensures KeyOf(t) !in gone && t !in s.mem.meta {
      assert t in map[u := tasks][u];
      assert t in s.mem.meta ==> Subpage(t, s.mem.meta[t]);
    }
    hide AddPages;
    assert forall t :: t in Live(m') ==> t in Live(s.mem) || t in tasks;
  }

  lemma AddsClean(idx: Index, max: nat, s: Sys, step: Step, gone: set<Key>)
    requires CleanPast(idx, s, gone) && step.Adds? && Enabled(idx, max, s, step) && CleanStep(s, step)
    ensures CleanPast(idx, Apply(idx, max, s, step), gone)
  {
    var Adds(u, tasks) := step;
    AddPagesPast(s.mem, gone, u, tasks);
    LivePast(s.mem, gone);
    assert GoodMetas(s.mem.meta) by { assert GoodMetas(Past(s.mem, gone).meta); }
    hide ApartMem, GoodPlan, Live, AddPages;
    CleanAddPages(Past(s.mem, gone), u, tasks);
    AddsApart(idx, s, gone, u, tasks);
  }

  lemma KillClean(idx: Index, s: Sys, gone: set<Key>, plan: map<Unit, seq<Task>>)
    requires CleanDisk(PastDisk(s.disk, gone)) && DoneClosed(s.disk.done + gone)
    requires ApartDisk(idx, s.disk, gone) && GoneKeys(gone) && CleanPlan(plan)
    ensures CleanPast(idx, s.(mem := Restart(s.disk, plan), now := s.saved, crew := multiset{}), gone)
  {
    NobodyStaffed();
    hide Staffed;
    RestartApart(idx, s.disk, gone, plan);
    CleanRestart(PastDisk(s.disk, gone), plan);
  }

  lemma TaskMeta(idx: Index, s: Sys, gone: set<Key>, task: Task)
    requires CleanPast(idx, s, gone) && task in s.mem.meta
    ensures Subpage(task, s.mem.meta[task])
  {
    assert GoodMetas(Past(s.mem, gone).meta);
  }

  // ------------------------------------------------------------------ kills in the window

  /** Booked in the window, the slice cannot come back: no unit queues it, and if a probe had opened it no
      probe of its page is left to do so again. */
  ghost predicate NeverAskedAgain(idx: Index, m: Mem, task: Task) {
    && !Root(KeyOf(task))
    && (task in m.meta && m.meta[task].role.Rest? ==>
          forall u :: u in Live(m) && CanOpen(idx, m.meta, u) ==> m.meta[u].parent != m.meta[task].parent)
  }

  lemma ChildNotSelf(task: Task, a: Answer, t: Task)
    requires Sized(KeyOf(task)) && t in Subpages(task, a.edge.Some?)
    ensures KeyOf(t) != KeyOf(task) && !Reopens({KeyOf(task)}, SubMeta(task, a).parent)
  {
    WalkSettle.SubpageOf(task, a.edge.Some?, t);
  }

  lemma RestNotSelf(task: Task, t: Task)
    requires task.page.Number? && t in RestOf(task) && task.page.n % 10 !in REST
    ensures KeyOf(t) != KeyOf(task)
  {
    var i :| 0 <= i < |REST| && t == RestOf(task)[i];
    assert t.page.n % 10 == REST[i];
  }

  /** No slice queued after the answer is the settled one, and no probe brings it back. */
  lemma SplitApartSelf(idx: Index, m: Mem, task: Task, a: Answer, t: Task)
    requires Clean(m) && task in m.inflight && !PruneRaises(m, task, a) && Sized(KeyOf(task))
    requires NeverAskedAgain(idx, m, task) && t in Live(Split(m, task, a))
    ensures KeyOf(t) != KeyOf(task)
    ensures CanOpen(idx, Split(m, task, a).meta, t) ==> !Reopens({KeyOf(task)}, Split(m, task, a).meta[t].parent)
  {
    SplitLive(m, task, a, t);
    LiveBeside(m, task, task);
    if t in Live(m) { LiveBeside(m, task, t); }
    hide Clean, Split, Live, Subpages, RestOf, SubMeta, Reopens;
    if !Whole(a) && t in Subpages(task, a.edge.Some?) {
      ChildNotSelf(task, a, t);
    } else if Opens(m, task, a) && t in RestOf(task) {
      RestNotSelf(task, t);
    } else {
      NotReopened(idx, m, task, t);
    }
  }

  lemma NotReopened(idx: Index, m: Mem, task: Task, t: Task)
    requires Clean(m) && task in m.inflight && NeverAskedAgain(idx, m, task) && t in Live(m) && t != task
    ensures KeyOf(t) != KeyOf(task) && (CanOpen(idx, m.meta, t) ==> !Reopens({KeyOf(task)}, m.meta[t].parent))
  {
    LiveBeside(m, task, t);
    LiveChild(m, task);
  }

  lemma LiveBeside(m: Mem, task: Task, t: Task)
    requires Clean(m) && task in m.inflight && !Root(KeyOf(task)) && t in Live(m) + {task}
    ensures Sized(KeyOf(task)) && task.page.Number? && task in Live(m) && task in m.meta
    ensures KeyOf(t) == KeyOf(task) ==> t == task
    ensures IsProbe(m.meta, t) && m.meta[t].parent == Parent(KeyOf(task)) && task.page.n % 10 in REST ==>
      m.meta[task].role.Rest?
  {
    LiveChild(m, task);
    assert task in Live(m);
    if IsProbe(m.meta, t) && m.meta[t].parent == Parent(KeyOf(task)) {
      assert Beside(task, m.meta[t], m.meta[task]) <==> task.page.n % 10 in REST;
    }
  }

  lemma SplitApartMore(idx: Index, s: Sys, gone: set<Key>, task: Task, a: Answer)
    requires CleanPast(idx, s, gone) && task in s.mem.inflight && !PruneRaises(s.mem, task, a) && Sized(KeyOf(task))
    requires NeverAskedAgain(idx, s.mem, task) && Journaled(idx, s.now, KeyOf(task), a)
    ensures ApartMem(idx, Split(s.mem, task, a), gone + {KeyOf(task)})
  {
    var m, k, p := s.mem, KeyOf(task), Past(s.mem, gone);
    var m' := Split(m, task, a);
    SplitApart(idx, s, gone, task, a);
    SettlePastSplit(m, gone, task, a);
    LivePast(m, gone);
    LivePast(m', gone);
    hide Split;
    forall t | t in Live(m')
      ensures KeyOf(t) !in gone + {k} && (CanOpen(idx, m'.meta, t) ==> !Reopens(gone + {k}, m'.meta[t].parent))
    {
      SplitApartSelf(idx, p, task, a, t);
      if CanOpen(idx, m'.meta, t) { ReopensBoth(gone, k, m'.meta[t].parent); }
    }
  }

  lemma ReopensBoth(gone: set<Key>, k: Key, page: Key)
    ensures Reopens(gone + {k}, page) ==> Reopens(gone, page) || Reopens({k}, page)
  {
  }

  /** The kill of a slice that cannot come back: from then on it is gone, and lane and files are clean. */
  lemma WindowGone(idx: Index, max: nat, s: Sys, step: Step, gone: set<Key>)
    requires CleanPast(idx, s, gone) && step.KillInSettle? && Enabled(idx, max, s, step)
    requires CleanPlan(step.plan) && NeverAskedAgain(idx, s.mem, step.task)
    ensures CleanPast(idx, Apply(idx, max, s, step), gone + {KeyOf(step.task)})
  {
    hide CleanDisk, Sized, Live, GoneKeys;
    var KillInSettle(task, a, tail, plan) := step;
    var k, e := KeyOf(task), Settle(s.mem, max, task, a);
    PastHolds(idx, s, gone, Asking(task));
    hide Staffed;
    var s1 := Save(Changed(s, task, a, e), tail);
    WindowFiles(idx, max, s, step, gone);
    SplitApartMore(idx, s, gone, task, a);
    SavedApart(idx, e.mem, gone + {k}, tail, s.disk.done);
    hide Settle, CleanSys, Changed, ApartMem, CleanDisk, PastSys;
    GoneMore(gone, k);
    KillClean(idx, s1, gone + {k}, plan);
  }

  /** The files that the kill leaves are those of a booking, once the key counts as booked. */
  lemma WindowFiles(idx: Index, max: nat, s: Sys, step: Step, gone: set<Key>)
    requires CleanPast(idx, s, gone) && step.KillInSettle? && Enabled(idx, max, s, step)
    ensures var KillInSettle(task, a, tail, _) := step;
      var d := Save(Changed(s, task, a, Settle(s.mem, max, task, a)), tail).disk;
      CleanDisk(PastDisk(d, gone + {KeyOf(task)})) && DoneClosed(d.done + (gone + {KeyOf(task)}))
  {
    hide CleanDisk, Sized, Live, GoneKeys, ApartMem, ApartDisk;
    var KillInSettle(task, a, tail, _) := step;
    var k, e, p := KeyOf(task), Settle(s.mem, max, task, a), PastSys(s, gone);
    PastHolds(idx, s, gone, Asking(task));
    hide Staffed;
    var s1 := Save(Changed(s, task, a, e), tail);
    var settles := Settles(task, a, tail);
    SettlesPast(idx, max, s, settles, gone);
    CleanSettle(idx, max, p, settles);
    SettlePast(max, s.mem, gone, task, a);
    SettleShape(idx, max, p, settles);
    hide Settle, CleanSys, Changed;
    assert s.disk.done + (gone + {k}) == s.disk.done + gone + {k};
    assert PastDisk(s1.disk, gone + {k}) == Apply(idx, max, p, settles).disk;
    CleanSysParts(Apply(idx, max, p, settles));
  }

  lemma CleanSysParts(s: Sys)
    requires CleanSys(s)
    ensures CleanDisk(s.disk) && DoneClosed(s.disk.done)
  {
  }

  lemma GoneMore(gone: set<Key>, k: Key)
    requires GoneKeys(gone) && Sized(k) && !Root(k)
    ensures GoneKeys(gone + {k})
  {
  }

  /** The kill after an answer that queued no subpages. */
  lemma WindowKept(idx: Index, max: nat, s: Sys, step: Step, gone: set<Key>)
    requires CleanPast(idx, s, gone) && step.KillInSettle? && Enabled(idx, max, s, step)
    requires CleanPlan(step.plan) && !LeavesSubpages(step.task, step.a)
    ensures CleanPast(idx, Apply(idx, max, s, step), gone)
  {
    hide Live, Settle;
    var KillInSettle(task, a, tail, plan) := step;
    PastHolds(idx, s, gone, Asking(task));
    hide Staffed;
    var e, p := Settle(s.mem, max, task, a), PastSys(s, gone);
    var s1 := Save(Changed(s, task, a, e), tail);
    SettlePast(max, s.mem, gone, task, a);
    ChangedPast(max, s, gone, task, a);
    SettleApart(idx, max, s, gone, task, a);
    SavedApart(idx, e.mem, gone, tail, s.disk.done);
    SavePast(Changed(s, task, a, e), gone, tail);
    hide Settle, CleanSys, Changed, ApartMem, CleanDisk, Note;
    assert PastSys(s1, gone) == Save(Changed(p, task, a, Settle(p.mem, max, task, a)), tail);
    WindowKillClean(idx, max, p, step);
    RestartApart(idx, s1.disk, gone, plan);
    assert Apply(idx, max, p, step) == PastSys(Apply(idx, max, s, step), gone);
  }
}
