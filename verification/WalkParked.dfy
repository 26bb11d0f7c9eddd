/** Parked slices at the next start: a page of a unit is asked again, a subpage is not. */
module WalkParked {
  import opened Strings
  import opened CdxIndex
  import opened WalkState
  import opened WalkSystem
  import opened WalkCoverage
  import opened WalkRuns
  import opened WalkClean
  import opened WalkCleanRuns
  import opened WalkGone
  import opened WalkSafe
  import opened WalkAlone
  import opened WalkAgain
  import W = WalkWindow

  /** Some task of the lane asks for the slice. */
  ghost predicate Asked(m: Mem, k: Key) {
    exists t :: t in Live(m) && KeyOf(t) == k
  }

  ghost predicate Planned(plan: map<Unit, seq<Task>>, k: Key) {
    exists u, t :: u in plan && t in plan[u] && KeyOf(t) == k
  }

  lemma ParkShape(max: nat, m: Mem, task: Task, a: Answer)
    requires m.asked.Keys == m.pages.Keys && Sized(KeyOf(task)) && Settle(m, max, task, a).outcome.Parked?
    ensures var m' := Settle(m, max, task, a).mem;
      m' == m.(fails := m'.fails, inflight := m.inflight - {task})
  {
  }

  /** The lane after parking has no task for the slice. */
  lemma ParkedGone(idx: Index, max: nat, s: Sys, gone: set<Key>, task: Task, a: Answer)
    requires CleanPast(idx, s, gone) && task in s.mem.inflight && Sized(KeyOf(task))
    requires Settle(s.mem, max, task, a).outcome.Parked?
    ensures forall t :: t in OwedBy(Settle(s.mem, max, task, a).mem) ==> KeyOf(t) != KeyOf(task)
    ensures KeyOf(task) !in s.disk.done
  {
    var p, m' := Past(s.mem, gone), Settle(s.mem, max, task, a).mem;
    ParkShape(max, s.mem, task, a);
    LivePast(s.mem, gone);
    assert InFlight(p, task) && task in Live(p);
    forall t | t in OwedBy(m') ensures KeyOf(t) != KeyOf(task) {
      assert t in Live(p);
      assert t == task ==> t in s.mem.subq && t in s.mem.inflight;
    }
    assert PastSys(s, gone).disk.done == PastSys(s, gone).mem.done;
  }

  lemma LiveIsPlanned(d: Disk, plan: map<Unit, seq<Task>>, t: Task)
    requires t in Live(Restart(d, plan)) && t !in OwedOn(d)
    ensures exists u :: u in plan && t in plan[u]
  {
    var m := Restart(d, plan);
    RestartLoads(d, plan);
    hide Restart, OwedOn, OwedBy, Root, KeyOf;
    var u :| u in m.pages && t in m.pages[u];
    assert t in plan[u];
  }

  lemma PlannedIsLive(d: Disk, plan: map<Unit, seq<Task>>, u: Unit, t: Task)
    requires KeyOf(t) !in d.done && u in plan && t in plan[u]
    ensures t in Live(Restart(d, plan))
  {
    var m := Restart(d, plan);
    assert t in m.pages[u];
    hide Restart, KeyOf;
    assert t in Queued(m);
  }

  lemma AskedIsPlanned(d: Disk, plan: map<Unit, seq<Task>>, k: Key)
    requires (forall t :: t in OwedOn(d) ==> KeyOf(t) != k) && Asked(Restart(d, plan), k)
    ensures Planned(plan, k)
  {
    hide Restart, OwedOn, Live, KeyOf;
    var t :| t in Live(Restart(d, plan)) && KeyOf(t) == k;
    LiveIsPlanned(d, plan, t);
  }

  lemma PlannedIsAsked(d: Disk, plan: map<Unit, seq<Task>>, k: Key)
    requires GoodPlan(plan) && k !in d.done && Planned(plan, k)
    ensures Asked(Restart(d, plan), k) && Root(k)
  {
    hide Restart, OwedOn, Live, KeyOf, Root;
    var u, t :| u in plan && t in plan[u] && KeyOf(t) == k;
    PlannedIsLive(d, plan, u, t);
  }

  lemma ParkedFile(idx: Index, max: nat, s: Sys, gone: set<Key>, step: Step)
    requires CleanPast(idx, s, gone) && step.Settles? && Enabled(idx, max, s, step)
    requires Settle(s.mem, max, step.task, step.a).outcome.Parked?
    ensures var d := Apply(idx, max, s, step).disk;
      d.done == s.disk.done && OwedOn(d) == OwedBy(Settle(s.mem, max, step.task, step.a).mem)
  {
    var e := Settle(s.mem, max, step.task, step.a);
    PastHolds(idx, s, gone, Asking(step.task));
    SettleApart(idx, max, s, gone, step.task, step.a);
    SettleShape(idx, max, s, step);
    hide Settle, CleanPast, Apply;
    SavedOwed(e.mem, step.tail, Apply(idx, max, s, step).disk);
    assert s.disk.done + {} == s.disk.done;
  }

  /** A slice parked by an answer is asked again after the next start if and only if it is a page or a question
      that the plan has. */
  lemma ParkedAtRestart(idx: Index, max: nat, s: Sys, gone: set<Key>, step: Step, plan: map<Unit, seq<Task>>)
    requires CleanPast(idx, s, gone) && step.Settles? && Enabled(idx, max, s, step) && GoodPlan(plan)
    requires Settle(s.mem, max, step.task, step.a).outcome.Parked?
    ensures var d := Apply(idx, max, s, step).disk; var k := KeyOf(step.task);
      Asked(Restart(d, plan), k) <==> Root(k) && Planned(plan, k)
  {
    ParkedFile(idx, max, s, gone, step);
    PastHolds(idx, s, gone, Asking(step.task));
    ParkedGone(idx, max, s, gone, step.task, step.a);
    hide Settle, CleanPast, Apply, Restart, Asked, Planned;
    var d, k := Apply(idx, max, s, step).disk, KeyOf(step.task);
    if Asked(Restart(d, plan), k) { AskedIsPlanned(d, plan, k); }
    if Planned(plan, k) { PlannedIsAsked(d, plan, k); }
  }

  // ------------------------------------------------------------------ a subpage that is not asked again

  /** A failure of the service, not of the address. */
  const FAULT := Answer(Http(500), false, 0, None)

  const LISTED := [Owed(W.P0, W.PROBE), Owed(W.P5, W.PROBE)]
  const METAS := map[W.P0 := W.PROBE, W.P5 := W.PROBE]
  const SILENT := W.BLANK.(sampled := {KeyOf(W.P)}, hollow := {KeyOf(W.P)})

  /** The first probe of a silent page is in flight and has failed n times, `refused` of them by the service. */
  function Failed(n: nat, refused: nat): Sys {
    var fails: map<Key, nat> := if n == 0 then map[] else map[KeyOf(W.P0) := n];
    Sys(Mem([W.P5], METAS, {}, {W.P0}, {KeyOf(W.P)}, fails, map[W.U := []], map[W.U := 1], Pace(0, refused, 0)),
        Disk(LISTED, {KeyOf(W.P)}), SILENT, SILENT, multiset{Asking(W.P0)})
  }

  function Back(n: nat, refused: nat): Sys {
    var s := Failed(n + 1, refused);
    s.(mem := s.mem.(subq := [W.P0, W.P5], inflight := {}), crew := multiset{})
  }

  /** A fault is no answer, and is the n-th failure. */
  lemma FaultFails(n: nat)
    requires n < 8
    ensures var m := Failed(n, n).mem; var m' := Failed(n + 1, n + 1).mem;
      && !Answered(m, W.P0, FAULT) && WalkState.Fails(m, KeyOf(W.P0)) == n && !ToFront(m.pace, 8, FAULT.status)
      && m.(fails := m.fails[KeyOf(W.P0) := n + 1], pace := Slower(m.pace, 8, FAULT.status)) == m'
  {
  }

  lemma FaultRequeues(n: nat)
    requires n < 8
    ensures var s := Failed(n, n); Settle(s.mem, 8, W.P0, FAULT) == Effect(Back(n, n + 1).mem, Requeued)
  {
    FaultFails(n);
    BackIs(n, n + 1, false);
    hide Book, Answered, Slower, ToFront, Back, Failed;
  }

  lemma BackIs(n: nat, refused: nat, front: bool)
    ensures Requeue(Failed(n + 1, refused).mem, W.P0, front) == Effect(Back(n, refused).mem, Requeued)
    ensures var m := Back(n, refused).mem; Tail(m, []) && CanSave(m) && Pending(m, []) == LISTED
  {
    var m := Back(n, refused).mem;
    assert {W.P0} - {W.P0} == {} && [W.P0] + [W.P5] == [W.P0, W.P5];
    assert m.subq + [] == [W.P0, W.P5];
  }

  /** Up to its eighth failure the probe goes back to the head of the queue. */
  lemma FaultPutsBack(n: nat)
    requires n < 8
    ensures Follows(W.IDX, 8, Failed(n, n), Settles(W.P0, FAULT, []), Back(n, n + 1))
  {
    FaultRequeues(n);
    BackIs(n, n + 1, false);
    W.QuietHonest(KeyOf(W.P0), FAULT, SILENT);
    hide Journaled, Settle, Tail, CanSave, Pending;
  }

  lemma TakenAgain(n: nat, refused: nat)
    ensures Follows(W.IDX, 8, Back(n, refused), Takes([], [W.U]), Failed(n + 1, refused))
  {
    assert [W.P0, W.P5][1..] == [W.P5] && {} + {W.P0} == {W.P0};
    assert multiset{} + multiset{Asking(W.P0)} == multiset{Asking(W.P0)};
  }

  // ------------------------------------------------------------------ the run

  function Page(): Sys {
    Sys(Reset(map[W.U := [W.P]], map[W.U := 0]), Disk([], {}), W.BLANK, W.BLANK, multiset{})
  }

  function Taken(): Sys {
    Page().(mem := Page().mem.(pages := map[W.U := []], asked := map[W.U := 1], inflight := {W.P}),
            crew := multiset{Asking(W.P)})
  }

  function Parks(): Sys {
    var m := Failed(8, 8).mem;
    Sys(m.(inflight := {}, fails := m.fails[KeyOf(W.P0) := 9]), Disk([Owed(W.P5, W.PROBE)], {KeyOf(W.P)}),
        SILENT.(parked := {KeyOf(W.P0)}), SILENT.(parked := {KeyOf(W.P0)}), multiset{})
  }

  lemma PageTaken()
    ensures Follows(W.IDX, 8, Page(), Takes([], [W.U]), Taken())
  {
    assert [W.P][1..] == [] && {} + {W.P} == {W.P} && multiset{} + multiset{Asking(W.P)} == multiset{Asking(W.P)};
  }

  /** Page 0 is silent and its probes are queued. */
  function Split0(): Mem {
    Failed(0, 0).mem.(subq := [W.P0, W.P5], inflight := {})
  }

  function Owing(): Sys {
    Failed(0, 0).(mem := Split0(), crew := multiset{})
  }

  lemma PageSilent()
    ensures Settle(Taken().mem, 8, W.P, W.SILENCE) == Effect(Split0().(done := {}), Booked)
  {
    hide Unanswered;
    W.TensAre();
    var none: map<Task, Meta> := map[];
    assert none - {W.P} == none && {W.P} - {W.P} == {} && W.Probes() + [] == W.Probes();
    assert WithMeta(none, W.Probes(), W.PROBE) == METAS;
  }

  lemma PageNoted()
    ensures Note(W.BLANK, Taken().mem, W.P, W.SILENCE, Effect(Split0().(done := {}), Booked)) == SILENT
  {
    W.TensAre();
    W.NoteSets();
    assert {} + {KeyOf(W.P)} == {KeyOf(W.P)};
  }

  lemma PageBooked()
    ensures Follows(W.IDX, 8, Taken(), Settles(W.P, W.SILENCE, []), Owing())
  {
    hide Book;
    PageSilent();
    PageNoted();
    W.QuietHonest(KeyOf(W.P), W.SILENCE, W.BLANK);
    var m, ts := Split0().(done := {}), [W.P0, W.P5];
    assert Tail(m, []) && ts == m.subq + [];
    hide Settle, Note, Journaled;
    W.SettleApplies(Taken(), W.P, W.SILENCE, [], m, SILENT, ts);
    assert Lines(ts, METAS) == LISTED && {} + {KeyOf(W.P)} == {KeyOf(W.P)};
  }

  lemma ProbeTaken()
    ensures Follows(W.IDX, 8, Owing(), Takes([], [W.U]), Failed(0, 0))
  {
    assert [W.P0, W.P5][1..] == [W.P5] && {} + {W.P0} == {W.P0};
    assert multiset{} + multiset{Asking(W.P0)} == multiset{Asking(W.P0)};
  }

  lemma Start()
    ensures Initial(Page()) && SortedIndex(W.IDX)
  {
  }

  /** One worker. */
  lemma Crews(n: nat, refused: nat)
    ensures |Failed(n, refused).crew| == 1 && |Back(n, refused).crew| == 0 && |Taken().crew| == 1
    ensures |Owing().crew| == 0 && |Parks().crew| == 0
  {
  }

  /** A run one step longer. */
  lemma Longer(states: seq<Sys>, steps: seq<Step>, step: Step, s': Sys) returns (states': seq<Sys>, steps': seq<Step>)
    requires Run(W.IDX, 8, states, steps) && WithinUntil(1, states, steps, |steps|)
    requires Follows(W.IDX, 8, states[|steps|], step, s') && Within(1, step, s')
    ensures Run(W.IDX, 8, states', steps') && WithinUntil(1, states', steps', |steps'|)
    ensures states'[0] == states[0] && states'[|steps'|] == s'
  {
    hide Follows, Within;
    RunWithin(1, W.IDX, 8, states, steps, step, s');
    states', steps' := states + [s'], steps + [step];
  }

  /** From a new walk's first state to its page's first probe in flight. */
  lemma FirstSteps() returns (states: seq<Sys>, steps: seq<Step>)
    ensures Run(W.IDX, 8, states, steps) && states[0] == Page() && states[|steps|] == Failed(0, 0)
    ensures WithinUntil(1, states, steps, |steps|)
  {
    PageTaken();
    PageBooked();
    ProbeTaken();
    Crews(0, 0);
    states, steps := [Page()], [];
    assert Run(W.IDX, 8, states, steps) && WithinUntil(1, states, steps, |steps|);
    hide Follows, Failed, Back, Page, Taken, Owing, Run, WithinUntil;
    states, steps := Longer(states, steps, Takes([], [W.U]), Taken());
    states, steps := Longer(states, steps, Settles(W.P, W.SILENCE, []), Owing());
    states, steps := Longer(states, steps, Takes([], [W.U]), Failed(0, 0));
  }

  /** And on to the probe's n-th failure. */
  lemma {:induction false} Fails(n: nat) returns (states: seq<Sys>, steps: seq<Step>)
    requires n <= 8
    ensures Run(W.IDX, 8, states, steps) && states[0] == Page() && states[|steps|] == Failed(n, n)
    ensures WithinUntil(1, states, steps, |steps|)
  {
    Crews(n, n);
    hide Follows, Failed, Back, Page, Taken, Owing, Run, WithinUntil;
    if n == 0 {
      states, steps := FirstSteps();
    } else {
      Crews(n - 1, n);
      FaultPutsBack(n - 1);
      TakenAgain(n - 1, n);
      states, steps := Fails(n - 1);
      states, steps := Longer(states, steps, Settles(W.P0, FAULT, []), Back(n - 1, n));
      states, steps := Longer(states, steps, Takes([], [W.U]), Failed(n, n));
    }
  }

  /** The ninth failure is counted, and parks. */
  lemma NinthFails()
    ensures var m := Failed(8, 8).mem;
      && !Answered(m, W.P0, FAULT) && WalkState.Fails(m, KeyOf(W.P0)) == 8 && FAULT.status !in ADDRESS
      && m.(fails := m.fails[KeyOf(W.P0) := 9], inflight := m.inflight - {W.P0}) == Parks().mem
  {
    assert {W.P0} - {W.P0} == {};
  }

  lemma NinthParks()
    ensures Settle(Failed(8, 8).mem, 8, W.P0, FAULT) == Effect(Parks().mem, WalkState.Parked)
    ensures var m := Parks().mem; Tail(m, []) && CanSave(m) && Pending(m, []) == [Owed(W.P5, W.PROBE)]
  {
    NinthFails();
    assert Parks().mem.subq + [] == [W.P5];
    hide Book, Answered;
  }

  lemma NinthNoted()
    ensures Note(SILENT, Failed(8, 8).mem, W.P0, FAULT, Effect(Parks().mem, WalkState.Parked)) ==
            SILENT.(parked := {KeyOf(W.P0)})
  {
    assert {} + {KeyOf(W.P0)} == {KeyOf(W.P0)};
    hide Parks, Failed;
  }

  lemma NinthFailure()
    ensures Follows(W.IDX, 8, Failed(8, 8), Settles(W.P0, FAULT, []), Parks())
  {
    NinthParks();
    NinthNoted();
    W.QuietHonest(KeyOf(W.P0), FAULT, SILENT);
    hide Journaled, Settle, Tail, CanSave, Pending, Note;
  }

  lemma NeverPlanned(plan: map<Unit, seq<Task>>, d: Disk)
    requires GoodPlan(plan) && d == Parks().disk
    ensures !Asked(Restart(d, plan), KeyOf(W.P0))
  {
    hide Restart;
    assert KeyOf(W.P0) !in d.done;
    if Asked(Restart(d, plan), KeyOf(W.P0)) {
      AskedIsPlanned(d, plan, KeyOf(W.P0));
      PlannedIsAsked(d, plan, KeyOf(W.P0));
    }
  }

  /** A run from a new walk's first state that parks a subpage: it is booked nowhere, and no plan brings it back. */
  lemma ParkedSubpageLeft() returns (states: seq<Sys>, steps: seq<Step>)
    ensures SortedIndex(W.IDX) && Run(W.IDX, 8, states, steps) && Initial(states[0])
    ensures WithinUntil(1, states, steps, |steps|)
    ensures var s := states[|steps|]; var k := KeyOf(W.P0);
      && k in s.saved.parked && k !in s.disk.done
      && forall plan :: GoodPlan(plan) ==> !Asked(Restart(s.disk, plan), k)
  {
    Start();
    states, steps := Fails(8);
    NinthFailure();
    Crews(0, 0);
    states, steps := Longer(states, steps, Settles(W.P0, FAULT, []), Parks());
    hide Run, Follows, Asked, GoodPlan, Restart, WithinUntil;
    forall plan | GoodPlan(plan) ensures !Asked(Restart(Parks().disk, plan), KeyOf(W.P0)) {
      NeverPlanned(plan, Parks().disk);
    }
  }
}
