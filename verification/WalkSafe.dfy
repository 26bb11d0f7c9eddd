/** Whole runs from a clean start: no call raises, no probe is lost, and every booked row is explained. */
module WalkSafe {
  import opened Strings
  import opened CdxIndex
  import opened WalkState
  import opened WalkSystem
  import opened WalkCoverage
  import opened WalkRuns
  import opened WalkProbes
  import opened WalkClean
  import opened WalkCleanRuns
  import opened WalkGone
  import WalkSettle

  /** A step the lane itself never makes unclean: the plans queue no slice twice, and a kill between the two
      writes of a booking falls on an answer that queued no subpages or on a slice that cannot come back. */
  ghost predicate SafeStep(idx: Index, s: Sys, step: Step) {
    match step
    case KillInSettle(task, a, _, plan) =>
      CleanPlan(plan) && Sized(KeyOf(task)) && (!LeavesSubpages(task, a) || NeverAskedAgain(idx, s.mem, task))
    case _ => CleanStep(s, step)
  }

  ghost function GoneAfter(gone: set<Key>, step: Step): set<Key> {
    if step.KillInSettle? && Sized(KeyOf(step.task)) && LeavesSubpages(step.task, step.a)
    then gone + {KeyOf(step.task)} else gone
  }

  /** A call under the lock ends in an exception. */
  ghost predicate Raises(max: nat, s: Sys, step: Step)
    requires s.mem.asked.Keys == s.mem.pages.Keys
  {
    match step
    case Settles(task, a, _) =>
      Sized(KeyOf(task)) &&
      (var e := Settle(s.mem, max, task, a); !Writes(e.outcome) || !CanSave(e.mem))
    case AskFails(task, _, _) =>
      task in s.mem.inflight && (var e := Requeue(s.mem, task, true); !Writes(e.outcome) || !CanSave(e.mem))
    case _ => false
  }

  lemma AsksClean(idx: Index, max: nat, s: Sys, step: Step, gone: set<Key>)
    requires CleanPast(idx, s, gone) && step.Asks? && Enabled(idx, max, s, step)
    ensures CleanPast(idx, Apply(idx, max, s, step), gone)
  {
    hide Clean, CleanDisk, ApartMem, ApartDisk, Staffed;
  }

  lemma KillsClean(idx: Index, max: nat, s: Sys, step: Step, gone: set<Key>)
    requires CleanPast(idx, s, gone) && step.Kill? && Enabled(idx, max, s, step) && CleanPlan(step.plan)
    ensures CleanPast(idx, Apply(idx, max, s, step), gone)
  {
    KillClean(idx, s, gone, step.plan);
    hide CleanPast;
  }

  lemma SafeKept(idx: Index, max: nat, s: Sys, step: Step, gone: set<Key>)
    requires CleanPast(idx, s, gone) && Enabled(idx, max, s, step) && SafeStep(idx, s, step)
    ensures CleanPast(idx, Apply(idx, max, s, step), GoneAfter(gone, step))
  {
    assert s.mem.asked.Keys == s.mem.pages.Keys;
    hide CleanPast, Apply, Enabled, NeverAskedAgain, LeavesSubpages, CleanPlan;
    match step
    case Takes(_, _) => TakesClean(idx, max, s, step, gone);
    case Asks(_, _, _) => AsksClean(idx, max, s, step, gone);
    case Settles(_, _, _) => SettlesClean(idx, max, s, step, gone);
    case AskFails(_, _, _) => AskFailsClean(idx, max, s, step, gone);
    case Adds(_, _) => AddsClean(idx, max, s, step, gone);
    case Kill(_) => KillsClean(idx, max, s, step, gone);
    case KillInSettle(task, a, _, _) =>
      if LeavesSubpages(task, a) {
        WindowGone(idx, max, s, step, gone);
      } else {
        WindowKept(idx, max, s, step, gone);
      }
  }

  lemma NoRaise(idx: Index, max: nat, s: Sys, step: Step, gone: set<Key>)
    requires CleanPast(idx, s, gone) && Enabled(idx, max, s, step)
    ensures !Raises(max, s, step) && !LosesTask(max, s, step)
  {
    hide Settle, GoneKeys, InSlice;
    match step
    case Settles(task, a, _) =>
      PastHolds(idx, s, gone, Asking(task));
      SettleApart(idx, max, s, gone, task, a);
    case AskFails(task, raised, _) =>
      PastHolds(idx, s, gone, if raised then Raised(task) else Asking(task));
      var p, e := Past(s.mem, gone), Requeue(s.mem, task, true);
      assert Requeue(p, task, true) == Effect(Past(e.mem, gone), e.outcome);
      NeverRaises(max, p, task, Answer(Ok, true, 0, None));
      CleanRequeue(p, task, true);
      CleanCanSave(Past(e.mem, gone));
    case _ =>
  }

  // ------------------------------------------------------------------ sampled pages on a clean lane

  /** A page whose first probes are queued is booked. */
  ghost predicate ParentTold(done: set<Key>, p: Key) {
    Sized(p) && p.page.Number? && p.size * 10 == PAGE ==> Parent(p) in done
  }

  /** The subpages of one page were queued as its unit's kind. */
  ghost predicate OneKind(live: set<Task>, meta: map<Task, Meta>) {
    forall t, u :: t in live && u in live && t in meta && u in meta && meta[t].parent == meta[u].parent ==>
      t.kind == u.kind
  }

  /** A live probe is not booked: only the other eight of a page can be queued again. */
  ghost predicate ProbesOpen(live: set<Task>, meta: map<Task, Meta>, done: set<Key>) {
    forall t :: t in live && IsProbe(meta, t) ==> KeyOf(t) !in done
  }

  /** A probe is one of the two asked below a page that fell silent. */
  predicate ProbeTold(t: Task, v: Meta, h: History) {
    v.role.Probe? ==> v.parent in h.sampled && t.page.Number? && t.page.n % 10 in PROBES
  }

  ghost predicate ProbesTold(live: set<Task>, meta: map<Task, Meta>, h: History) {
    forall t :: t in live && t in meta ==> ProbeTold(t, meta[t], h)
  }

  ghost predicate OneKindOn(d: Disk) {
    forall i, j :: 0 <= i < |d.pending| && 0 <= j < |d.pending| ==>
      d.pending[i].meta.parent == d.pending[j].meta.parent ==> d.pending[i].task.kind == d.pending[j].task.kind
  }

  /** Sampled pages are booked and have no cut subpages, and a probe shows a row only below a booked page. */
  ghost predicate Told(live: set<Task>, meta: map<Task, Meta>, done: set<Key>, h: History) {
    && h.sampled <= done
    && (forall t :: t in live && t in meta && meta[t].role.Cut? ==> meta[t].parent !in h.sampled)
    && (forall p :: p in h.shown ==> ParentTold(done, p))
    && OneKind(live, meta) && ProbesOpen(live, meta, done) && ProbesTold(live, meta, h)
  }

  ghost predicate ToldDisk(d: Disk, h: History) {
    && h.sampled <= d.done
    && (forall i :: 0 <= i < |d.pending| && d.pending[i].meta.role.Cut? ==> d.pending[i].meta.parent !in h.sampled)
    && (forall p :: p in h.shown ==> ParentTold(d.done, p))
    && OneKindOn(d)
    && (forall i :: 0 <= i < |d.pending| ==> ProbeTold(d.pending[i].task, d.pending[i].meta, h))
  }

  ghost predicate ToldSys(s: Sys) {
    Told(Live(s.mem), s.mem.meta, s.mem.done, s.now) && ToldDisk(s.disk, s.saved)
  }

  lemma FewerTold(live: set<Task>, meta: map<Task, Meta>, done: set<Key>, h: History,
                  live': set<Task>, meta': map<Task, Meta>, done': set<Key>, h': History)
    requires Told(live, meta, done, h) && live' <= live && done == done'
    requires forall t :: t in live' && t in meta' ==> t in meta && meta'[t] == meta[t]
    requires h'.sampled == h.sampled && h'.shown == h.shown
    ensures Told(live', meta', done', h')
  {
  }

  lemma SavedTold(m: Mem, h: History, tail: seq<Task>)
    requires Told(Live(m), m.meta, m.done, h) && CanSave(m) && Tail(m, tail)
    ensures ToldDisk(Disk(Pending(m, tail), m.done), h)
  {
    var ts, p := m.subq + tail, Pending(m, tail);
    forall i | 0 <= i < |p|
      ensures p[i].meta.role.Cut? ==> p[i].meta.parent !in h.sampled
      ensures ProbeTold(p[i].task, p[i].meta, h)
    {
      assert ts[i] in m.subq || ts[i] in tail;
      assert ts[i] in Live(m) && p[i].meta == m.meta[ts[i]];
    }
  }

  lemma RestartTold(d: Disk, h: History, plan: map<Unit, seq<Task>>)
    requires ToldDisk(d, h)
    ensures var m := Restart(d, plan); Told(Live(m), m.meta, m.done, h)
  {
    var m := Restart(d, plan);
    RestartLoads(d, plan);
    LoadDistinct(d.pending, d.done, Reset(m.pages, m.asked));
    forall t | t in Live(m) && t in m.meta && m.meta[t].role.Cut? ensures m.meta[t].parent !in h.sampled {
      var i :| 0 <= i < |d.pending| && d.pending[i] == Owed(t, m.meta[t]);
    }
  }

  /** What a clean lane says of a task in flight: a subpage hangs below a booked page, and none of its own
      subpages is known. */
  lemma TaskTold(idx: Index, s: Sys, gone: set<Key>, task: Task)
    requires CleanPast(idx, s, gone) && task in s.mem.inflight && Sized(KeyOf(task))
    ensures KeyOf(task) !in s.mem.done && ParentTold(s.mem.done, KeyOf(task))
    ensures forall t :: t in Live(s.mem) && t in s.mem.meta ==> s.mem.meta[t].parent != KeyOf(task)
    ensures !Root(KeyOf(task)) ==> task in s.mem.meta && s.mem.meta[task].parent == Parent(KeyOf(task))
  {
    var p := Past(s.mem, gone);
    LivePast(s.mem, gone);
    assert InFlight(p, task) && task in Live(p);
    if !Root(KeyOf(task)) { LiveChild(p, task); }
    forall t | t in Live(p) && t in p.meta ensures p.meta[t].parent != KeyOf(task) {
      assert p.meta[t].parent in p.done;
    }
  }

  /** What a booked answer adds to the sampled pages and to the probes shown. */
  lemma NoteTold(m: Mem, h: History, task: Task, a: Answer, e: Effect)
    requires Sized(KeyOf(task)) && e.outcome.Booked?
    ensures var h' := Note(h, m, task, a, e);
      && h'.sampled == h.sampled + (if LeavesSubpages(task, a) && a.edge.None? then {KeyOf(task)} else {})
      && h'.shown == h.shown + (if a.edge.Some? then {KeyOf(task)} else {})
  {
  }

  lemma SampledRoot(task: Task, a: Answer)
    requires Sized(KeyOf(task)) && LeavesSubpages(task, a) && a.edge.None?
    ensures Root(KeyOf(task))
  {
  }

  /** No live cut subpage hangs below a page the answer samples, or below one sampled before. */
  lemma CutTold(idx: Index, s: Sys, gone: set<Key>, task: Task, a: Answer, t: Task)
    requires CleanPast(idx, s, gone) && task in s.mem.inflight && Sized(KeyOf(task)) && !PruneRaises(s.mem, task, a)
    requires Told(Live(s.mem), s.mem.meta, s.mem.done, s.now)
    requires var m' := Split(s.mem, task, a); t in Live(m') && t in m'.meta && m'.meta[t].role.Cut?
    ensures Split(s.mem, task, a).meta[t].parent !in s.now.sampled
    ensures a.edge.None? ==> Split(s.mem, task, a).meta[t].parent != KeyOf(task)
  {
    TaskTold(idx, s, gone, task);
    SettlePastSplit(s.mem, gone, task, a);
    LivePast(s.mem, gone);
    LivePast(Split(s.mem, task, a), gone);
    SplitLive(Past(s.mem, gone), task, a, t);
    hide Live, Split, CleanPast, Subpages, RestOf, Opens, Whole, PruneRaises, ParentTold;
    assert SubMeta(task, a).role.Cut? <==> a.edge.Some?;
  }

  /** A probe queued by the answer is below the page it samples. */
  lemma NewProbeTold(m: Mem, h: History, task: Task, a: Answer, t: Task)
    requires Sized(KeyOf(task)) && !Whole(a) && t in Subpages(task, a.edge.Some?)
    ensures ProbeTold(t, SubMeta(task, a), Note(h, m, task, a, Effect(m, Booked)))
  {
    WalkSettle.SubpageOf(task, a.edge.Some?, t);
    if a.edge.None? {
      var i :| 0 <= i < |PROBES| && t == Child(task, PROBES[i]);
    }
  }

  lemma SplitProbeTold(idx: Index, s: Sys, gone: set<Key>, task: Task, a: Answer, t: Task)
    requires CleanPast(idx, s, gone) && task in s.mem.inflight && Sized(KeyOf(task)) && !PruneRaises(s.mem, task, a)
    requires ProbesTold(Live(s.mem), s.mem.meta, s.now)
    requires var m' := Split(s.mem, task, a); t in Live(m') && t in m'.meta
    ensures var m' := Split(s.mem, task, a);
      ProbeTold(t, m'.meta[t], Note(s.now, s.mem, task, a, Effect(m', Booked)))
  {
    hide Split, Live;
    var m, m' := s.mem, Split(s.mem, task, a);
    SettlePastSplit(m, gone, task, a);
    LivePast(m, gone);
    LivePast(m', gone);
    SplitLive(Past(m, gone), task, a, t);
    hide CleanPast, PruneRaises, RestOf, Subpages, Opens, Whole, Note;
    SampledGrows(m, s.now, task, a, m');
    if !Whole(a) && t in Subpages(task, a.edge.Some?) {
      NewProbeTold(m, s.now, task, a, t);
    }
  }

  lemma SampledGrows(m: Mem, h: History, task: Task, a: Answer, m': Mem)
    requires Sized(KeyOf(task))
    ensures h.sampled <= Note(h, m, task, a, Effect(m', Booked)).sampled
    ensures Note(h, m, task, a, Effect(m', Booked)) == Note(h, m, task, a, Effect(m, Booked))
  {
  }

  /** Where the kind of a task live after the answer comes from. */
  ghost predicate KindFrom(m: Mem, task: Task, t: Task, v: Meta) {
    || (v.parent == KeyOf(task) && t.kind == task.kind)
    || (task in m.meta && v.parent == m.meta[task].parent && t.kind == task.kind)
    || (t in Live(m) && t in m.meta && m.meta[t] == v)
  }

  lemma RestKind(task: Task, t: Task)
    requires task.page.Number? && t in RestOf(task)
    ensures t.kind == task.kind
  {
  }

  lemma KindTold(idx: Index, s: Sys, gone: set<Key>, task: Task, a: Answer, t: Task)
    requires CleanPast(idx, s, gone) && task in s.mem.inflight && Sized(KeyOf(task)) && !PruneRaises(s.mem, task, a)
    requires var m' := Split(s.mem, task, a); t in Live(m') && t in m'.meta
    ensures KindFrom(s.mem, task, t, Split(s.mem, task, a).meta[t])
  {
    var m, m' := s.mem, Split(s.mem, task, a);
    SettlePastSplit(m, gone, task, a);
    LivePast(m, gone);
    LivePast(m', gone);
    SplitLive(Past(m, gone), task, a, t);
    WalkSettle.SplitMetaIs(m, task, a, t);
    hide Live, Split, CleanPast, PruneRaises, ParentTold, RestOf, Subpages;
    if !Whole(a) && t in Subpages(task, a.edge.Some?) {
      WalkSettle.SubpageOf(task, a.edge.Some?, t);
    } else if Opens(m, task, a) && t in RestOf(task) {
      RestKind(task, t);
    }
  }

  lemma SplitOneKind(idx: Index, s: Sys, gone: set<Key>, task: Task, a: Answer)
    requires CleanPast(idx, s, gone) && task in s.mem.inflight && Sized(KeyOf(task)) && !PruneRaises(s.mem, task, a)
    requires OneKind(Live(s.mem), s.mem.meta)
    ensures var m' := Split(s.mem, task, a); OneKind(Live(m'), m'.meta)
  {
    var m, m' := s.mem, Split(s.mem, task, a);
    TaskTold(idx, s, gone, task);
    assert task in Live(m);
    forall t, u | t in Live(m') && u in Live(m') && t in m'.meta && u in m'.meta
      ensures m'.meta[t].parent == m'.meta[u].parent ==> t.kind == u.kind
    {
      KindTold(idx, s, gone, task, a, t);
      KindTold(idx, s, gone, task, a, u);
      hide Live, Split, CleanPast, KindFrom, OneKind;
      KindsMeet(m, task, t, m'.meta[t], u, m'.meta[u]);
    }
  }

  lemma KindsMeet(m: Mem, task: Task, t: Task, v: Meta, u: Task, w: Meta)
    requires KindFrom(m, task, t, v) && KindFrom(m, task, u, w) && OneKind(Live(m), m.meta) && task in Live(m)
    requires forall t :: t in Live(m) && t in m.meta ==> m.meta[t].parent != KeyOf(task)
    ensures v.parent == w.parent ==> t.kind == u.kind
  {
    hide Live;
  }

  /** A new subpage of a page in flight is not booked. */
  lemma ChildUnbooked(idx: Index, s: Sys, gone: set<Key>, task: Task, a: Answer, t: Task)
    requires CleanPast(idx, s, gone) && task in s.mem.inflight && Sized(KeyOf(task))
    requires t in Subpages(task, a.edge.Some?)
    ensures KeyOf(t) !in s.mem.done + {KeyOf(task)}
  {
    FreshFromGone(idx, s, gone, task);
    WalkSettle.SubpageOf(task, a.edge.Some?, t);
    var done := PastSys(s, gone).mem.done;
    assert DoneClosed(done);
    assert KeyOf(t) in s.mem.done ==> KeyOf(t) in done;
  }

  lemma OtherKey(idx: Index, s: Sys, gone: set<Key>, task: Task, t: Task)
    requires CleanPast(idx, s, gone) && task in s.mem.inflight && t in Live(s.mem) && t != task
    ensures KeyOf(t) != KeyOf(task)
  {
    LivePast(s.mem, gone);
    assert task in Live(s.mem);
  }

  lemma SplitProbesOpen(idx: Index, s: Sys, gone: set<Key>, task: Task, a: Answer, t: Task)
    requires CleanPast(idx, s, gone) && task in s.mem.inflight && Sized(KeyOf(task)) && !PruneRaises(s.mem, task, a)
    requires ProbesOpen(Live(s.mem), s.mem.meta, s.mem.done)
    requires var m' := Split(s.mem, task, a); t in Live(m') && IsProbe(m'.meta, t)
    ensures KeyOf(t) !in s.mem.done + {KeyOf(task)}
  {
    hide Split, Live;
    var m, m' := s.mem, Split(s.mem, task, a);
    SettlePastSplit(m, gone, task, a);
    LivePast(m, gone);
    LivePast(m', gone);
    SplitLive(Past(m, gone), task, a, t);
    hide Live, Split, CleanPast, PruneRaises, RestOf, Subpages, Opens, Whole;
    if !Whole(a) && t in Subpages(task, a.edge.Some?) {
      ChildUnbooked(idx, s, gone, task, a, t);
    } else if t in Live(m) && t != task {
      OtherKey(idx, s, gone, task, t);
    }
  }

  /** A booked answer, before its key is booked and after. */
  lemma SplitTold(idx: Index, s: Sys, gone: set<Key>, task: Task, a: Answer, done: set<Key>)
    requires CleanPast(idx, s, gone) && task in s.mem.inflight && Sized(KeyOf(task)) && !PruneRaises(s.mem, task, a)
    requires Told(Live(s.mem), s.mem.meta, s.mem.done, s.now)
    requires done == s.mem.done || done == s.mem.done + {KeyOf(task)}
    requires done == s.mem.done ==> !LeavesSubpages(task, a) || !Root(KeyOf(task))
    ensures var m' := Split(s.mem, task, a);
      Told(Live(m'), m'.meta, done, Note(s.now, s.mem, task, a, Effect(m', Booked)))
  {
    hide CleanPast, Split;
    var m, h, m' := s.mem, s.now, Split(s.mem, task, a);
    var h' := Note(h, m, task, a, Effect(m', Booked));
    TaskTold(idx, s, gone, task);
    SplitOneKind(idx, s, gone, task, a);
    NoteTold(m, h, task, a, Effect(m', Booked));
    if LeavesSubpages(task, a) && a.edge.None? { SampledRoot(task, a); }
    forall t | t in Live(m') && t in m'.meta && m'.meta[t].role.Cut? ensures m'.meta[t].parent !in h'.sampled {
      CutTold(idx, s, gone, task, a, t);
    }
    forall t | t in Live(m') && IsProbe(m'.meta, t) ensures KeyOf(t) !in done {
      SplitProbesOpen(idx, s, gone, task, a, t);
    }
    forall t | t in Live(m') && t in m'.meta ensures ProbeTold(t, m'.meta[t], h') {
      SplitProbeTold(idx, s, gone, task, a, t);
    }
    hide Live, Split, CleanPast, Note, LeavesSubpages, OneKind, ProbeTold;
    forall p | p in h'.shown ensures ParentTold(done, p) {
      if p in h.shown { assert ParentTold(m.done, p); }
    }
  }

  // ------------------------------------------------------------------ told by every step

  lemma TakesTold(idx: Index, max: nat, s: Sys, step: Step, gone: set<Key>)
    requires CleanPast(idx, s, gone) && ToldSys(s) && step.Takes? && Enabled(idx, max, s, step)
    ensures ToldSys(Apply(idx, max, s, step))
  {
    var Takes(early, units) := step;
    var m' := Take(s.mem, early, units).0;
    assert forall t :: t in s.mem.subq ==> t in Live(s.mem);
    TakePast(s.mem, gone, early, units);
    CleanTake(Past(s.mem, gone), early, units);
    LivePast(s.mem, gone);
    LivePast(m', gone);
    TakeDone(s.mem, early, units);
    hide Take, Live, CleanPast, Told;
    FewerTold(Live(s.mem), s.mem.meta, s.mem.done, s.now, Live(m'), m'.meta, m'.done, s.now);
  }

  lemma TakeDone(m: Mem, early: seq<Unit>, units: seq<Unit>)
    requires m.asked.Keys == m.pages.Keys && forall u :: u in early + units ==> u in m.pages
    ensures Take(m, early, units).0.done == m.done
  {
    assert forall u :: u in early || u in units ==> u in early + units;
    PopDone(m, early);
    TakeSubDone(m);
    PopDone(TakeSub(m).0, units);
  }

  lemma {:induction false} PopDone(m: Mem, units: seq<Unit>)
    requires m.asked.Keys == m.pages.Keys && forall u :: u in units ==> u in m.pages
    ensures Pop(m, units).0.done == m.done
  {
    if units != [] && m.pages[units[0]] == [] { PopDone(m, units[1..]); }
  }

  lemma {:induction false} TakeSubDone(m: Mem)
    ensures TakeSub(m).0.done == m.done
    decreases |m.subq|
  {
    if m.subq != [] && KeyOf(m.subq[0]) in m.done {
      TakeSubDone(m.(subq := m.subq[1..], meta := m.meta - {m.subq[0]}));
    }
  }

  /** The lane once an answer is settled, up to the rewrite of `pending.txt`; booked at once or not at all. */
  lemma ChangedTold(idx: Index, max: nat, s: Sys, gone: set<Key>, task: Task, a: Answer, done: set<Key>)
    requires CleanPast(idx, s, gone) && ToldSys(s) && task in s.mem.inflight && Sized(KeyOf(task))
    requires done == s.mem.done ||
      (Settle(s.mem, max, task, a).outcome.Booked? && done == s.mem.done + {KeyOf(task)})
    requires Settle(s.mem, max, task, a).outcome.Booked? && done == s.mem.done ==>
      !LeavesSubpages(task, a) || !Root(KeyOf(task))
    ensures var s1 := Changed(s, task, a, Settle(s.mem, max, task, a));
      Told(Live(s1.mem), s1.mem.meta, done, s1.now)
  {
    var m, e := s.mem, Settle(s.mem, max, task, a);
    NeverRaises(max, Past(m, gone), task, a);
    SettlePast(max, m, gone, task, a);
    if Answered(m, task, a) {
      SplitTold(idx, s, gone, task, a, done);
    } else {
      CleanUnanswered(max, Past(m, gone), task, a);
      SettlePastUnanswered(max, m, gone, task, a);
      UnansweredOutcome(max, m, s.now, task, a);
      hide Unanswered, Live, CleanPast, Note;
      LivePast(m, gone);
      LivePast(e.mem, gone);
      FewerTold(Live(m), m.meta, m.done, s.now, Live(e.mem), e.mem.meta, done, Note(s.now, m, task, a, e));
    }
  }

  lemma UnansweredOutcome(max: nat, m: Mem, h: History, task: Task, a: Answer)
    requires m.asked.Keys == m.pages.Keys && Sized(KeyOf(task))
    ensures var e := Unanswered(m, max, task, a); var h' := Note(h, m, task, a, e);
      && !e.outcome.Booked? && h'.sampled == h.sampled && h'.shown == h.shown && e.mem.done == m.done
      && e.mem.meta == m.meta
  {
  }

  lemma SettleDone(max: nat, m: Mem, task: Task, a: Answer)
    requires m.asked.Keys == m.pages.Keys && Sized(KeyOf(task))
    ensures Settle(m, max, task, a).mem.done == m.done
  {
  }

  /** What a settle that writes leaves noted, in memory and on disk. */
  lemma SettleNotes(idx: Index, max: nat, s: Sys, step: Step)
    requires step.Settles? && s.mem.asked.Keys == s.mem.pages.Keys && Enabled(idx, max, s, step)
    requires var e := Settle(s.mem, max, step.task, step.a); Writes(e.outcome) && CanSave(e.mem)
    ensures var s' := Apply(idx, max, s, step);
      s'.saved == s'.now == Note(s.now, s.mem, step.task, step.a, Settle(s.mem, max, step.task, step.a))
  {
    hide Settle, Note;
  }

  lemma SavedDoneTold(m: Mem, h: History, tail: seq<Task>, done: set<Key>)
    requires Told(Live(m), m.meta, done, h) && CanSave(m) && Tail(m, tail)
    ensures ToldDisk(Disk(Pending(m, tail), done), h)
    ensures Told(Live(m.(done := done)), m.meta, done, h)
  {
    hide Told, ToldDisk;
    var m' := m.(done := done);
    assert Queued(m') == Queued(m);
    SavedTold(m', h, tail);
  }

  lemma SettlesTold(idx: Index, max: nat, s: Sys, step: Step, gone: set<Key>)
    requires CleanPast(idx, s, gone) && ToldSys(s) && s.mem.done == s.disk.done
    requires step.Settles? && Enabled(idx, max, s, step)
    ensures ToldSys(Apply(idx, max, s, step))
  {
    hide Apply, Unanswered, Note;
    var Settles(task, a, tail) := step;
    PastHolds(idx, s, gone, Asking(task));
    var e := Settle(s.mem, max, task, a);
    var done := s.mem.done + if e.outcome.Booked? then {KeyOf(task)} else {};
    SettleApart(idx, max, s, gone, task, a);
    SettleShape(idx, max, s, step);
    SettleNotes(idx, max, s, step);
    SettleDone(max, s.mem, task, a);
    assert s.mem.done + {} == s.mem.done;
    ChangedTold(idx, max, s, gone, task, a, done);
    hide Settle, Told, CleanPast, Note, ToldDisk, Apply;
    SavedDoneTold(e.mem, Note(s.now, s.mem, task, a, e), tail, done);
  }

  lemma AskFailsTold(idx: Index, max: nat, s: Sys, step: Step, gone: set<Key>)
    requires CleanPast(idx, s, gone) && ToldSys(s) && s.mem.done == s.disk.done
    requires step.AskFails? && Enabled(idx, max, s, step)
    ensures ToldSys(Apply(idx, max, s, step))
  {
    hide Settle, Live, Delivered;
    var AskFails(task, raised, tail) := step;
    PastHolds(idx, s, gone, if raised then Raised(task) else Asking(task));
    var p, e := Past(s.mem, gone), Requeue(s.mem, task, true);
    assert Requeue(p, task, true) == Effect(Past(e.mem, gone), e.outcome);
    CleanRequeue(p, task, true);
    NeverRaises(max, p, task, Answer(Ok, true, 0, None));
    CleanCanSave(Past(e.mem, gone));
    LivePast(s.mem, gone);
    LivePast(e.mem, gone);
    hide CleanPast, Live, Told, ToldDisk;
    FewerTold(Live(s.mem), s.mem.meta, s.mem.done, s.now, Live(e.mem), e.mem.meta, e.mem.done, s.now);
    SavedTold(e.mem, s.now, tail);
  }

  lemma AddsTold(s: Sys, u: Unit, tasks: seq<Task>)
    requires ToldSys(s) && s.mem.asked.Keys == s.mem.pages.Keys && u !in s.mem.pages
    requires forall t :: t in tasks ==> t !in s.mem.meta
    ensures ToldSys(s.(mem := AddPages(s.mem, u, tasks)))
  {
    AddedQueued(s.mem, u, tasks);
  }

  lemma WindowTold(idx: Index, max: nat, s: Sys, step: Step, gone: set<Key>)
    requires CleanPast(idx, s, gone) && ToldSys(s) && s.mem.done == s.disk.done
    requires step.KillInSettle? && Enabled(idx, max, s, step) && SafeStep(idx, s, step)
    ensures ToldSys(Apply(idx, max, s, step))
  {
    var KillInSettle(task, a, tail, plan) := step;
    PastHolds(idx, s, gone, Asking(task));
    var e := Settle(s.mem, max, task, a);
    ChangedTold(idx, max, s, gone, task, a, s.mem.done);
    SettleDone(max, s.mem, task, a);
    hide Settle, Told, CleanPast, Note, ToldDisk, LeavesSubpages, NeverAskedAgain;
    var s1 := Save(Changed(s, task, a, e), tail);
    SavedTold(e.mem, s1.now, tail);
    RestartTold(s1.disk, s1.saved, plan);
  }

  lemma ToldKept(idx: Index, max: nat, s: Sys, step: Step, gone: set<Key>)
    requires CleanPast(idx, s, gone) && ToldSys(s) && s.mem.done == s.disk.done
    requires Enabled(idx, max, s, step) && SafeStep(idx, s, step)
    ensures ToldSys(Apply(idx, max, s, step))
  {
    match step
    case Takes(_, _) => TakesTold(idx, max, s, step, gone);
    case Asks(_, _, _) => hide CleanPast;
    case Settles(_, _, _) => SettlesTold(idx, max, s, step, gone);
    case AskFails(_, _, _) => AskFailsTold(idx, max, s, step, gone);
    case Adds(u, tasks) =>
      PlanNotOwed(idx, s, u, tasks, gone);
      hide CleanPast, ToldSys;
      AddsTold(s, u, tasks);
    case Kill(plan) =>
      hide CleanPast;
      RestartTold(s.disk, s.saved, plan);
    case KillInSettle(_, _, _, _) => WindowTold(idx, max, s, step, gone);
  }

  lemma PlanNotOwed(idx: Index, s: Sys, u: Unit, tasks: seq<Task>, gone: set<Key>)
    requires CleanPast(idx, s, gone) && GoodPlan(map[u := tasks])
    ensures forall t :: t in tasks ==> t !in s.mem.meta
  {
    forall t | t in tasks ensures t !in s.mem.meta {
      assert t in map[u := tasks][u];
      RootNotOwed(Past(s.mem, gone).meta, t);
    }
  }

  lemma RootNotOwed(meta: map<Task, Meta>, t: Task)
    requires GoodMetas(meta) && Root(KeyOf(t))
    ensures t !in meta
  {
  }

  // ------------------------------------------------------------------ no probe is lost

  /** A probe of a sampled page that is in flight on a clean lane still opens the page. */
  lemma ProbeOpens(idx: Index, s: Sys, gone: set<Key>, task: Task, a: Answer)
    requires CleanPast(idx, s, gone) && Inv(idx, s) && ProbesKept(s) && ToldSys(s)
    requires task in s.mem.inflight && a.edge.Some? && ProbeOf(s.now, KeyOf(task))
    ensures Opens(s.mem, task, a)
  {
    var m, k, p := s.mem, Parent(KeyOf(task)), Past(s.mem, gone);
    assert SampledPage(OwedBy(m), m.done, s.now, k);
    assert InFlight(p, task) && task in Live(p);
    LivePast(m, gone);
    LiveChild(p, task);
    assert Subpage(task, m.meta[task]);
  }

  lemma ShownBelowBooked(idx: Index, s: Sys, gone: set<Key>, task: Task, j: nat)
    requires CleanPast(idx, s, gone) && ToldSys(s) && task in s.mem.inflight && Sized(KeyOf(task))
    requires Subpages(task, false) != [] && j in PROBES
    ensures Sub(KeyOf(task), j) !in s.now.shown
  {
    var k := KeyOf(task);
    TaskTold(idx, s, gone, task);
    assert Parent(Sub(k, j)) == k && Sized(Sub(k, j));
    assert ParentTold(s.mem.done, Sub(k, j)) ==> k in s.mem.done;
  }

  lemma NoProbeLost(idx: Index, max: nat, s: Sys, step: Step, gone: set<Key>)
    requires CleanPast(idx, s, gone) && Inv(idx, s) && ProbesKept(s) && ToldSys(s) && Enabled(idx, max, s, step)
    ensures !LosesProbeIn(max, s, step)
  {
    hide CleanPast;
    if step.Settles? || step.KillInSettle? {
      var task, a := step.task, step.a;
      PastHolds(idx, s, gone, Asking(task));
      assert task in Live(s.mem);
      if a.edge.Some? && ProbeOf(s.now, KeyOf(task)) { ProbeOpens(idx, s, gone, task, a); }
      if Subpages(task, false) != [] {
        forall j | j in PROBES ensures Sub(KeyOf(task), j) !in s.now.shown {
          ShownBelowBooked(idx, s, gone, task, j);
        }
      }
    }
  }

  // ------------------------------------------------------------------ whole runs

  lemma InitialSafe(idx: Index, s: Sys)
    requires Initial(s) && CleanPlan(s.mem.pages)
    ensures CleanPast(idx, s, {}) && ToldSys(s)
  {
    hide CleanPlan, Staffed;
    InitialClean(s);
    hide CleanSys;
    assert s.mem.done + {} == s.mem.done && s.disk.done + {} == s.disk.done;
    assert PastSys(s, {}) == s;
  }

  lemma InitialProbes(s: Sys)
    requires Initial(s)
    ensures ProbesKept(s)
  {
  }

  /** The steps before n are safe. */
  ghost predicate SafeUntil(idx: Index, states: seq<Sys>, steps: seq<Step>, n: nat)
    requires n <= |steps| && |states| == |steps| + 1
  {
    forall i :: 0 <= i < n ==> SafeStep(idx, states[i], steps[i])
  }

  /** None of the calls before n ends in an exception or loses a probe. */
  ghost predicate QuietUntil(max: nat, states: seq<Sys>, steps: seq<Step>, n: nat)
    requires n <= |steps| && |states| == |steps| + 1
  {
    forall i :: 0 <= i < n ==>
      && states[i].mem.asked.Keys == states[i].mem.pages.Keys
      && !Raises(max, states[i], steps[i]) && !LosesTask(max, states[i], steps[i])
      && !LosesProbeIn(max, states[i], steps[i])
  }

  /** Lane, files and history of a run from a clean start. */
  ghost predicate SafeSys(idx: Index, s: Sys, gone: set<Key>) {
    CleanPast(idx, s, gone) && ToldSys(s) && Inv(idx, s) && ProbesKept(s)
  }

  lemma SafeDone(idx: Index, s: Sys, gone: set<Key>)
    requires SafeSys(idx, s, gone)
    ensures s.mem.done == s.disk.done && CleanPast(idx, s, gone) && ToldSys(s)
  {
  }

  lemma SafeNext(idx: Index, max: nat, s: Sys, step: Step, gone: set<Key>)
    requires SafeSys(idx, s, gone) && Enabled(idx, max, s, step) && SafeStep(idx, s, step)
    ensures SafeSys(idx, Apply(idx, max, s, step), GoneAfter(gone, step))
    ensures !Raises(max, s, step) && !LosesTask(max, s, step) && !LosesProbeIn(max, s, step)
  {
    hide CleanPast, ToldSys, Inv, ProbesKept, Apply, Enabled, SafeStep, LosesProbeIn, LosesTask, Raises;
    NoRaise(idx, max, s, step, gone);
    NoProbeLost(idx, max, s, step, gone);
    SafeKept(idx, max, s, step, gone);
    InvDone(idx, s);
    ToldKept(idx, max, s, step, gone);
    StepKept(idx, max, s, step);
  }

  lemma {:induction false} RunSafe(idx: Index, max: nat, states: seq<Sys>, steps: seq<Step>, n: nat, first: set<Key>)
    returns (gone: set<Key>)
    requires Run(idx, max, states, steps) && n <= |steps| && SafeSys(idx, states[0], first)
    requires SafeUntil(idx, states, steps, n)
    ensures SafeSys(idx, states[n], gone) && QuietUntil(max, states, steps, n)
  {
    if n == 0 {
      gone := first;
    } else {
      hide SafeSys, SafeStep, GoneAfter;
      var i := n - 1;
      gone := RunSafe(idx, max, states, steps, i, first);
      RunAt(idx, max, states, steps, i);
      assert SafeStep(idx, states[i], steps[i]);
      hide Run, SafeUntil, QuietUntil, Apply, Enabled, LosesProbeIn, LosesTask, Raises;
      SafeNext(idx, max, states[i], steps[i], gone);
      gone := GoneAfter(gone, steps[i]);
      QuietMore(max, states, steps, i);
    }
  }

  lemma RunAt(idx: Index, max: nat, states: seq<Sys>, steps: seq<Step>, i: nat)
    requires Run(idx, max, states, steps) && i < |steps|
    ensures |states| == |steps| + 1 && states[i].mem.asked.Keys == states[i].mem.pages.Keys
    ensures Enabled(idx, max, states[i], steps[i]) && states[i + 1] == Apply(idx, max, states[i], steps[i])
  {
  }

  lemma QuietMore(max: nat, states: seq<Sys>, steps: seq<Step>, i: nat)
    requires i < |steps| && |states| == |steps| + 1 && QuietUntil(max, states, steps, i)
    requires var s := states[i];
      && s.mem.asked.Keys == s.mem.pages.Keys
      && !Raises(max, s, steps[i]) && !LosesTask(max, s, steps[i]) && !LosesProbeIn(max, s, steps[i])
    ensures QuietUntil(max, states, steps, i + 1)
  {
    hide LosesProbeIn, LosesTask, Raises;
  }

  lemma InvDone(idx: Index, s: Sys)
    requires Inv(idx, s)
    ensures s.mem.done == s.disk.done
  {
  }

  /** Walk coverage and crash safety from a clean start: in every run whose plans queue no slice twice, whatever
      the answers and wherever the kills fall but one kind, no call raises, and each row of each booked slice is
      explained, in memory and on disk. The kind left out: a kill between the two writes of a booking, after an
      answer that queued subpages, of a slice that can still be asked again. */
  lemma RunClean(idx: Index, max: nat, states: seq<Sys>, steps: seq<Step>)
    requires SortedIndex(idx) && Run(idx, max, states, steps) && Initial(states[0]) && CleanPlan(states[0].mem.pages)
    requires SafeUntil(idx, states, steps, |steps|)
    ensures QuietUntil(max, states, steps, |steps|)
    ensures forall n :: 0 <= n < |states| ==>
      && AllExplained(idx, OwedBy(states[n].mem), states[n].mem.done, states[n].now)
      && AllExplained(idx, OwedOn(states[n].disk), states[n].disk.done, states[n].saved)
  {
    InitialSafe(idx, states[0]);
    InitialInv(idx, states[0]);
    InitialProbes(states[0]);
    var _ := RunSafe(idx, max, states, steps, |steps|, {});
    hide Run, AllExplained, SafeStep, LosesProbeIn, LosesTask, Raises;
    forall n | 0 <= n < |states|
      ensures AllExplained(idx, OwedBy(states[n].mem), states[n].mem.done, states[n].now)
      ensures AllExplained(idx, OwedOn(states[n].disk), states[n].disk.done, states[n].saved)
    {
      RunCovered(idx, max, states, steps, n);
    }
  }
}
