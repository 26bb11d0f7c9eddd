/** The last-first order of a cut page: what a booked answer queues, drops and keeps, and that no slice before the one
    that reaches the cut row is asked any more. */
module WalkStop {
  import opened Strings
  import opened CdxIndex
  import opened WalkState
  import opened WalkSystem
  import opened WalkCoverage
  import opened WalkRuns
  import opened WalkProbes
  import opened WalkClean
  import opened WalkCleanRuns
  import opened WalkGone
  import opened WalkSafe
  import opened WalkLog
  import WalkSettle

  // ------------------------------------------------------------------ one booked answer

  /** The slices of the page that lie before this one. */
  predicate Before(meta: map<Task, Meta>, parent: Key, n: nat, t: Task) {
    t in meta && meta[t].parent == parent && t.page.Number? && t.page.n < n
  }

  /** What stands in the queue is some of what stood there, in its order. */
  ghost predicate Thinned(subq: seq<Task>, kept: seq<Task>) {
    exists at :: ThinnedAt(subq, kept, at)
  }

  ghost predicate ThinnedAt(subq: seq<Task>, kept: seq<Task>, at: seq<nat>) {
    && |at| == |kept| && (forall k :: 0 <= k < |at| ==> at[k] < |subq| && kept[k] == subq[at[k]])
    && forall k, l :: 0 <= k < l < |at| ==> at[k] < at[l]
  }

  lemma ThinnedMore(x: Task, subq: seq<Task>, kept: seq<Task>)
    requires Thinned(subq, kept)
    ensures Thinned([x] + subq, kept) && Thinned([x] + subq, [x] + kept)
  {
    var at :| ThinnedAt(subq, kept, at);
    var up := seq(|at|, k requires 0 <= k < |at| => at[k] + 1);
    assert ThinnedAt([x] + subq, kept, up);
    assert ThinnedAt([x] + subq, [x] + kept, [0] + up);
  }

  lemma ThinnedNone(subq: seq<Task>)
    ensures Thinned(subq, subq)
  {
    assert ThinnedAt(subq, subq, seq(|subq|, k => k));
  }

  lemma {:induction false} DropThins(subq: seq<Task>, meta: map<Task, Meta>, parent: Key, task: Task)
    requires forall t :: t in subq ==> t in meta
    ensures Thinned(subq, DropLower(subq, meta, parent, task))
  {
    hide Thinned;
    if subq == [] {
      ThinnedNone(subq);
    } else {
      DropThins(subq[1..], meta, parent, task);
      assert subq == [subq[0]] + subq[1..];
      ThinnedMore(subq[0], subq[1..], DropLower(subq[1..], meta, parent, task));
    }
  }

  /** The tenths that an incomplete answer queues: all ten, the last first, when rows came; the first and the sixth of
      a page of a unit when none did; and none of a slice that is no longer split. */
  predicate Tenths(task: Task, a: Answer, tenths: seq<Task>) {
    if task.page.Question? || (a.status.Ok? && a.complete) || task.size < 10 then tenths == []
    else
      var tenth := (j: nat) =>
        Task(task.sfx, task.size / 10, Number(task.page.n * 10 + j), task.first, task.last, task.kind);
      if a.edge.Some? then |tenths| == 10 && forall i :: 0 <= i < 10 ==> tenths[i] == tenth(9 - i)
      else if task.size == 1000 then tenths == [tenth(0), tenth(5)]
      else tenths == []
  }

  /** The other eight of the page, in order, when a probe of it has a row for the first time. */
  predicate OtherEight(m: Mem, task: Task, a: Answer, rest: seq<Task>) {
    if task.page.Number? && task in m.meta && m.meta[task].role == Probe && a.edge.Some?
       && m.meta[task].parent !in m.probed
    then
      |rest| == 8 && forall i :: 0 <= i < 8 ==>
        rest[i] == task.(page := Number(task.page.n / 10 * 10 + i + if i < 4 then 1 else 2))
    else rest == []
  }

  /** The owed subpages that stay: all but the slices before one that was cut off, when it starts before its cut row. */
  ghost predicate Stays(m: Mem, task: Task, a: Answer, kept: seq<Task>) {
    && Thinned(m.subq, kept)
    && forall t :: multiset(kept)[t] ==
        if task in m.meta && m.meta[task].role == Cut && a.edge.Some? && Less(a.edge.value.first, m.meta[task].stop)
           && task.page.Number? && Before(m.meta, m.meta[task].parent, task.page.n, t)
        then 0 else multiset(m.subq)[t]
  }

  /** Why each task is asked afterwards. */
  ghost predicate Metas(m: Mem, task: Task, a: Answer, tenths: seq<Task>, rest: seq<Task>, meta: map<Task, Meta>) {
    forall t ::
      if t in tenths then
        t in meta && meta[t] == Meta(if a.edge.Some? then Cut else Probe, KeyOf(task),
                                     if a.edge.Some? then a.edge.value.last else "")
      else if t in rest then t in meta && task in m.meta && meta[t] == Meta(Rest, m.meta[task].parent, "")
      else if t == task || t !in m.meta then t !in meta
      else t in meta && meta[t] == m.meta[t]
  }

  lemma SplitTenths(task: Task, a: Answer)
    requires Sized(KeyOf(task))
    ensures Tenths(task, a, if Whole(a) then [] else Subpages(task, a.edge.Some?))
  {
  }

  lemma OpenEight(m: Mem, task: Task, a: Answer)
    ensures OtherEight(m, task, a, if Opens(m, task, a) then RestOf(task) else [])
  {
  }

  lemma PruneStays(m: Mem, task: Task, a: Answer)
    requires !PruneRaises(m, task, a) && Sized(KeyOf(task))
    ensures Stays(m, task, a, Pruned(m, task, a).subq)
  {
    hide Thinned;
    ThinnedNone(m.subq);
    if Prunes(m, task, a) {
      var meta, parent := m.meta - {task}, m.meta[task].parent;
      DropThins(m.subq, meta, parent, task);
      forall t ensures multiset(DropLower(m.subq, meta, parent, task))[t] ==
        if task.page.Number? && Before(m.meta, parent, task.page.n, t) then 0 else multiset(m.subq)[t]
      {
        DropLowerCopies(m.subq, meta, parent, task, t);
      }
    }
  }

  lemma SplitMetas(m: Mem, task: Task, a: Answer, tenths: seq<Task>, rest: seq<Task>)
    requires !PruneRaises(m, task, a) && Sized(KeyOf(task))
    requires tenths == (if Whole(a) then [] else Subpages(task, a.edge.Some?))
    requires rest == (if Opens(m, task, a) then RestOf(task) else [])
    ensures Metas(m, task, a, tenths, rest, Split(m, task, a).meta)
  {
    hide Subpages, RestOf, DropLower;
  }

  lemma SplitQueue(m: Mem, task: Task, a: Answer, tenths: seq<Task>, rest: seq<Task>)
    requires !PruneRaises(m, task, a) && Sized(KeyOf(task))
    requires tenths == (if Whole(a) then [] else Subpages(task, a.edge.Some?))
    requires rest == (if Opens(m, task, a) then RestOf(task) else [])
    ensures var m' := Split(m, task, a); var kept := Pruned(m, task, a).subq;
      && m'.subq == tenths + rest + kept
      && m'.probed == m.probed + (if Opens(m, task, a) then {m.meta[task].parent} else {})
      && m' == m.(subq := m'.subq, meta := m'.meta, probed := m'.probed, inflight := m.inflight - {task},
                  pace := if a.status.Ok? then Pace(0, 0, 0) else m.pace.(throttled := 0))
  {
    hide Subpages, DropLower, RestOf, WithMeta;
    var kept := Pruned(m, task, a).subq;
    assert [] + (rest + kept) == rest + kept && [] + kept == kept && tenths + (rest + kept) == tenths + rest + kept;
  }

  /** What a booked answer does to the lane: the tenths on top, then the other eight, then what stays; the counters
      ease, and nothing is booked yet, counted as failed or moved in the units. */
  lemma BookedExactly(max: nat, m: Mem, task: Task, a: Answer)
    returns (tenths: seq<Task>, rest: seq<Task>, kept: seq<Task>)
    requires m.asked.Keys == m.pages.Keys && Sized(KeyOf(task)) && Settle(m, max, task, a).outcome.Booked?
    ensures var m' := Settle(m, max, task, a).mem;
      && m'.subq == tenths + rest + kept
      && Tenths(task, a, tenths) && OtherEight(m, task, a, rest) && Stays(m, task, a, kept)
      && Metas(m, task, a, tenths, rest, m'.meta)
      && m'.probed == m.probed + (if rest != [] then {m.meta[task].parent} else {})
      && m' == m.(subq := m'.subq, meta := m'.meta, probed := m'.probed, inflight := m.inflight - {task},
                  pace := if a.status.Ok? then Pace(0, 0, 0) else m.pace.(throttled := 0))
  {
    BookedSplits(max, m, task, a);
    tenths := if Whole(a) then [] else Subpages(task, a.edge.Some?);
    rest := if Opens(m, task, a) then RestOf(task) else [];
    kept := Pruned(m, task, a).subq;
    SplitTenths(task, a);
    OpenEight(m, task, a);
    PruneStays(m, task, a);
    SplitMetas(m, task, a, tenths, rest);
    SplitQueue(m, task, a, tenths, rest);
    hide Subpages, Stays, Metas, Tenths, Split, PruneRaises, Pruned, Settle;
  }

  lemma BookedSplits(max: nat, m: Mem, task: Task, a: Answer)
    requires m.asked.Keys == m.pages.Keys && Sized(KeyOf(task)) && Settle(m, max, task, a).outcome.Booked?
    ensures !PruneRaises(m, task, a) && Settle(m, max, task, a).mem == Split(m, task, a)
  {
    hide Split, PruneRaises;
  }

  // ------------------------------------------------------------------ the slices before the cut row

  lemma NewIsNotSibling(task: Task, v: Meta, t: Task, w: Meta)
    requires Subpage(task, v) && w.parent == KeyOf(task)
    ensures w.parent != v.parent
  {
  }

  /** A cut-off slice that is answered from before the cut row on, and booked: no slice before it of its page is owed
      any more, and every other task still is, as often as before. */
  lemma CutStops(max: nat, m: Mem, task: Task, a: Answer)
    requires m.asked.Keys == m.pages.Keys && task in m.meta && Subpage(task, m.meta[task])
    requires m.meta[task].role.Cut? && a.edge.Some? && Less(a.edge.value.first, m.meta[task].stop)
    requires Settle(m, max, task, a).outcome.Booked?
    ensures var m', parent := Settle(m, max, task, a).mem, m.meta[task].parent;
      && (forall t :: t in m'.subq ==> !Before(m'.meta, parent, task.page.n, t))
      && (forall t :: t in m.subq && !Before(m.meta, parent, task.page.n, t) ==>
            multiset(m'.subq)[t] >= multiset(m.subq)[t])
  {
    var m', parent := Settle(m, max, task, a).mem, m.meta[task].parent;
    var tenths, rest, kept := BookedExactly(max, m, task, a);
    hide Settle, Tenths, Thinned;
    assert rest == [];
    forall t | t in m'.subq ensures !Before(m'.meta, parent, task.page.n, t) {
      assert t in tenths || t in kept;
      if t in tenths {
        NewIsNotSibling(task, m.meta[task], t, m'.meta[t]);
      } else {
        assert multiset(kept)[t] > 0;
      }
    }
    assert multiset(m'.subq) == multiset(tenths) + multiset(rest) + multiset(kept);
  }

  /** The keys of the slices before this one of its page, but of those in flight. */
  ghost function Stopped(task: Task, inflight: set<Task>): set<Key>
    requires task.page.Number?
  {
    set j | 0 <= j < task.page.n % 10 && !Flies(inflight, Sub(Parent(KeyOf(task)), j)) :: Sub(Parent(KeyOf(task)), j)
  }

  ghost predicate Flies(inflight: set<Task>, k: Key) {
    exists u :: u in inflight && KeyOf(u) == k
  }

  /** The settle of a cut-off slice that starts before its cut row. */
  ghost predicate Stops(max: nat, s: Sys, step: Step)
    requires s.mem.asked.Keys == s.mem.pages.Keys
  {
    && step.Settles? && step.task in s.mem.meta && step.task.page.Number? && Sized(KeyOf(step.task))
    && s.mem.meta[step.task].role == Cut && step.a.edge.Some?
    && Less(step.a.edge.value.first, s.mem.meta[step.task].stop)
    && Settle(s.mem, max, step.task, step.a).outcome.Booked?
  }

  lemma StoppedKeys(task: Task, v: Meta, inflight: set<Task>, k: Key)
    requires Subpage(task, v) && k in Stopped(task, inflight)
    ensures Sized(k) && !Root(k) && k.page.Number? && Parent(k) == v.parent && k.page.n < task.page.n
    ensures !Flies(inflight, k)
  {
    var j: nat :| j < task.page.n % 10 && k == Sub(Parent(KeyOf(task)), j);
  }

  /** The lane and the file after such a settle. */
  ghost predicate StoppedShape(idx: Index, s: Sys, task: Task, tail: seq<Task>, s': Sys) {
    && task in s.mem.inflight && task in s.mem.meta && Subpage(task, s.mem.meta[task])
    && CanSave(s'.mem) && Tail(s'.mem, tail) && s'.disk.pending == Pending(s'.mem, tail)
    && s'.mem.inflight == s.mem.inflight - {task} && s.mem.done <= s'.mem.done
    && (forall t :: t in s'.mem.subq ==> !Before(s'.mem.meta, s.mem.meta[task].parent, task.page.n, t))
    && s'.now.sampled <= s.now.sampled + {KeyOf(task)}
  }

  lemma StopsShape(idx: Index, max: nat, s: Sys, step: Step, gone: set<Key>)
    requires CleanPast(idx, s, gone) && s.mem.asked.Keys == s.mem.pages.Keys && Enabled(idx, max, s, step)
    requires Stops(max, s, step)
    ensures StoppedShape(idx, s, step.task, step.tail, Apply(idx, max, s, step))
  {
    hide Note, Settle, Apply, Honest, StoppedShape, Live, Subpage;
    var Settles(task, a, tail) := step;
    var m, e, s' := s.mem, Settle(s.mem, max, task, a), Apply(idx, max, s, step);
    PastHolds(idx, s, gone, Asking(task));
    TaskMeta(idx, s, gone, task);
    CutStops(max, m, task, a);
    SettleApart(idx, max, s, gone, task, a);
    hide CleanPast;
    SettleShape(idx, max, s, step);
    SettleNotes(idx, max, s, step);
    SettleLeaves(max, m, task, a);
    SettleDone(max, m, task, a);
    NoteSampled(s.now, m, task, a, e);
    hide Enabled, Stops;
    ShapeOf(idx, s, task, tail, e, s');
  }

  lemma ShapeOf(idx: Index, s: Sys, task: Task, tail: seq<Task>, e: Effect, s': Sys)
    requires task in s.mem.inflight && task in s.mem.meta && Subpage(task, s.mem.meta[task])
    requires CanSave(e.mem) && Tail(e.mem, tail) && s'.mem == e.mem.(done := s'.mem.done)
    requires s'.disk.pending == Pending(e.mem, tail) && e.mem.inflight == s.mem.inflight - {task}
    requires s.mem.done <= s'.mem.done && s'.now.sampled <= s.now.sampled + {KeyOf(task)}
    requires forall t :: t in e.mem.subq ==> !Before(e.mem.meta, s.mem.meta[task].parent, task.page.n, t)
    ensures StoppedShape(idx, s, task, tail, s')
  {
  }

  lemma NoteSampled(h: History, m: Mem, task: Task, a: Answer, e: Effect)
    requires Sized(KeyOf(task))
    ensures Note(h, m, task, a, e).sampled <= h.sampled + {KeyOf(task)}
  {
  }

  /** Nothing live afterwards is one of them. */
  lemma NoneLive(idx: Index, s: Sys, task: Task, tail: seq<Task>, s': Sys, gone: set<Key>, t: Task)
    requires StoppedShape(idx, s, task, tail, s') && CleanPast(idx, s', gone) && t in Live(s'.mem)
    ensures KeyOf(t) !in Stopped(task, s.mem.inflight)
  {
    if KeyOf(t) in Stopped(task, s.mem.inflight) {
      StoppedKeys(task, s.mem.meta[task], s.mem.inflight, KeyOf(t));
      var p := Past(s'.mem, gone);
      LivePast(s'.mem, gone);
      hide ApartMem, ApartDisk, Stopped, CanSave, Tail, Pending;
      LiveChild(p, t);
      QueuedRoot(p);
    }
  }

  /** No live probe brings one of them back: their page was cut, not sampled. */
  lemma NoneReopened(idx: Index, s: Sys, task: Task, tail: seq<Task>, s': Sys, t: Task)
    requires StoppedShape(idx, s, task, tail, s') && ToldSys(s) && ToldSys(s')
    requires s.mem.meta[task].role.Cut? && t in Live(s'.mem) && IsProbe(s'.mem.meta, t)
    ensures s'.mem.meta[t].parent != s.mem.meta[task].parent
  {
    assert task in Live(s.mem);
    assert s.mem.meta[task].parent !in s'.now.sampled;
    hide Live, CanSave, Tail, Pending;
    assert ProbeTold(t, s'.mem.meta[t], s'.now);
  }

  /** From then on they are gone: lane and files are as clean as if they were booked. */
  lemma StoppedGone(idx: Index, max: nat, s: Sys, step: Step, gone: set<Key>)
    requires SafeSys(idx, s, gone) && s.mem.asked.Keys == s.mem.pages.Keys && Enabled(idx, max, s, step)
    requires Stops(max, s, step) && SafeStep(idx, s, step)
    ensures SafeSys(idx, Apply(idx, max, s, step), gone + Stopped(step.task, s.mem.inflight))
  {
    SafeNext(idx, max, s, step, gone);
    SafeDone(idx, s, gone);
    SafeDone(idx, Apply(idx, max, s, step), gone);
    StopsShape(idx, max, s, step, gone);
    hide CleanPast, ToldSys, Inv, ProbesKept, Apply, Enabled, Stopped, StoppedShape;
    TaskParent(idx, s, step.task, step.tail, Apply(idx, max, s, step), gone);
    LostAll(idx, s, step.task, step.tail, Apply(idx, max, s, step), gone);
  }

  lemma TaskParent(idx: Index, s: Sys, task: Task, tail: seq<Task>, s': Sys, gone: set<Key>)
    requires StoppedShape(idx, s, task, tail, s') && CleanPast(idx, s, gone)
    ensures s.mem.meta[task].parent in s'.mem.done + gone
  {
    assert task in Live(s.mem);
    MetaParent(idx, s, gone, task);
  }

  lemma LostAll(idx: Index, s: Sys, task: Task, tail: seq<Task>, s': Sys, gone: set<Key>)
    requires StoppedShape(idx, s, task, tail, s') && ToldSys(s) && ToldSys(s') && CleanPast(idx, s', gone)
    requires s.mem.meta[task].role.Cut? && s.mem.meta[task].parent in s'.mem.done + gone
    ensures CleanPast(idx, s', gone + Stopped(task, s.mem.inflight))
  {
    var lost, parent := Stopped(task, s.mem.inflight), s.mem.meta[task].parent;
    assert ApartMem(idx, s'.mem, gone);
    hide CleanPast, ToldSys, Stopped, Live, HasRow, CanSave, Tail, Pending;
    forall t | t in Live(s'.mem)
      ensures KeyOf(t) !in gone + lost
      ensures CanOpen(idx, s'.mem.meta, t) ==> !Reopens(gone + lost, s'.mem.meta[t].parent)
    {
      NoneLive(idx, s, task, tail, s', gone, t);
      if CanOpen(idx, s'.mem.meta, t) {
        NoneReopened(idx, s, task, tail, s', t);
        LostReopen(gone, lost, task, s.mem.meta[task], s.mem.inflight, s'.mem.meta[t].parent);
      }
    }
    SavedApart(idx, s'.mem, gone + lost, tail, s'.disk.done);
    forall k | k in lost ensures Sized(k) && !Root(k) && Parent(k) in s'.mem.done + gone {
      StoppedKeys(task, s.mem.meta[task], s.mem.inflight, k);
    }
    LostClean(idx, s', gone, lost);
  }

  lemma LostReopen(gone: set<Key>, lost: set<Key>, task: Task, v: Meta, inflight: set<Task>, page: Key)
    requires Subpage(task, v) && lost == Stopped(task, inflight) && page != v.parent && !Reopens(gone, page)
    ensures !Reopens(gone + lost, page)
  {
    hide Stopped;
    if k :| k in gone + lost && k.page.Number? && Parent(k) == page && k.page.n % 10 in REST {
      if k in lost { StoppedKeys(task, v, inflight, k); }
    }
  }

  // ------------------------------------------------------------------ over whole runs

  lemma SafeBefore(idx: Index, states: seq<Sys>, steps: seq<Step>, n: nat)
    requires 0 < n <= |steps| && |states| == |steps| + 1 && SafeUntil(idx, states, steps, n)
    ensures SafeUntil(idx, states, steps, n - 1) && SafeStep(idx, states[n - 1], steps[n - 1])
  {
    hide SafeStep;
  }

  /** What is gone stays gone. */
  lemma {:induction false} GoneStays(idx: Index, max: nat, states: seq<Sys>, steps: seq<Step>, i: nat, n: nat,
                                     first: set<Key>) returns (gone: set<Key>)
    requires Run(idx, max, states, steps) && i <= n <= |steps| && SafeUntil(idx, states, steps, n)
    requires SafeSys(idx, states[i], first)
    ensures SafeSys(idx, states[n], gone) && first <= gone
    decreases n - i
  {
    hide SafeSys, SafeStep, SafeUntil, Apply, Enabled;
    if i == n {
      gone := first;
    } else {
      SafeBefore(idx, states, steps, n);
      RunAt(idx, max, states, steps, n - 1);
      hide Run;
      gone := GoneStays(idx, max, states, steps, i, n - 1, first);
      SafeNext(idx, max, states[n - 1], steps[n - 1], gone);
      gone := GoneAfter(gone, steps[n - 1]);
    }
  }

  /** Whether the task is of the same page as the other and before it. */
  predicate LowerTenth(t: Task, task: Task) {
    && t.page.Number? && task.page.Number? && t.page.n < task.page.n && Sized(KeyOf(t)) && t.size == task.size
    && Parent(KeyOf(t)) == Parent(KeyOf(task))
  }

  lemma LowerIsStopped(t: Task, task: Task, inflight: set<Task>)
    requires LowerTenth(t, task) && Sized(KeyOf(task)) && task.size < PAGE && !Flies(inflight, KeyOf(t))
    ensures KeyOf(t) in Stopped(task, inflight)
  {
    var j := t.page.n % 10;
    assert KeyOf(t) == Sub(Parent(KeyOf(task)), j);
  }

  lemma TakenIsLive(m: Mem, early: seq<Unit>, units: seq<Unit>)
    requires m.asked.Keys == m.pages.Keys && forall u :: u in early + units ==> u in m.pages
    ensures var (m', t) := Take(m, early, units); t.Some? ==> t.value in m'.inflight
  {
    assert forall u :: u in early || u in units ==> u in early + units;
    PopFlies(m, early);
    TakeSubFlies(m);
    PopFlies(TakeSub(m).0, units);
  }

  lemma {:induction false} PopFlies(m: Mem, units: seq<Unit>)
    requires m.asked.Keys == m.pages.Keys && forall u :: u in units ==> u in m.pages
    ensures var (m', t) := Pop(m, units); t.Some? ==> t.value in m'.inflight
  {
    if units != [] && m.pages[units[0]] == [] { PopFlies(m, units[1..]); }
  }

  lemma {:induction false} TakeSubFlies(m: Mem)
    ensures var (m', t) := TakeSub(m); t.Some? ==> t.value in m'.inflight
    decreases |m.subq|
  {
    if m.subq != [] && KeyOf(m.subq[0]) in m.done {
      TakeSubFlies(m.(subq := m.subq[1..], meta := m.meta - {m.subq[0]}));
    }
  }

  /** From a clean start, with any number of workers and any harmless kills: once a cut-off slice that starts before
      its cut row is booked, no slice before it of its page is taken, but one that another worker held then. */
  lemma StopsForGood(idx: Index, max: nat, states: seq<Sys>, steps: seq<Step>, i: nat, j: nat, t: Task)
    requires SortedIndex(idx) && Run(idx, max, states, steps) && Initial(states[0]) && CleanPlan(states[0].mem.pages)
    requires SafeUntil(idx, states, steps, |steps|) && i < j < |steps|
    requires states[i].mem.asked.Keys == states[i].mem.pages.Keys && Stops(max, states[i], steps[i])
    requires steps[j].Takes? && Asking(t) in states[j + 1].crew && Asking(t) !in states[j].crew
    requires LowerTenth(t, steps[i].task)
    ensures exists u :: u in states[i].mem.inflight && u != steps[i].task && KeyOf(u) == KeyOf(t)
  {
    InitialSafe(idx, states[0]);
    InitialInv(idx, states[0]);
    InitialProbes(states[0]);
    hide SafeSys, SafeStep, Run, SafeUntil, Stops, Initial;
    var task, inflight := steps[i].task, states[i].mem.inflight;
    var gone := SafeAt(idx, max, states, steps, i);
    AtStep(idx, max, states, steps, i);
    StoppedGone(idx, max, states[i], steps[i], gone);
    var later := GoneFrom(idx, max, states, steps, i + 1, j + 1, gone + Stopped(task, inflight));
    AtStep(idx, max, states, steps, j);
    SafeHolds(idx, states[j + 1], later, t);
    StopsTask(idx, max, states[i], steps[i], gone);
    if !Flies(inflight, KeyOf(t)) { LowerIsStopped(t, task, inflight); }
    var u :| u in inflight && KeyOf(u) == KeyOf(t);
    assert KeyOf(task) != KeyOf(t);
  }

  lemma SafeAt(idx: Index, max: nat, states: seq<Sys>, steps: seq<Step>, n: nat) returns (gone: set<Key>)
    requires Run(idx, max, states, steps) && n <= |steps| && SafeSys(idx, states[0], {})
    requires SafeUntil(idx, states, steps, |steps|)
    ensures SafeSys(idx, states[n], gone)
  {
    gone := GoneFrom(idx, max, states, steps, 0, n, {});
  }

  lemma GoneFrom(idx: Index, max: nat, states: seq<Sys>, steps: seq<Step>, i: nat, n: nat, first: set<Key>)
    returns (gone: set<Key>)
    requires Run(idx, max, states, steps) && i <= n <= |steps| && SafeUntil(idx, states, steps, |steps|)
    requires SafeSys(idx, states[i], first)
    ensures SafeSys(idx, states[n], gone) && first <= gone
  {
    hide SafeSys, SafeStep;
    gone := GoneStays(idx, max, states, steps, i, n, first);
  }

  lemma AtStep(idx: Index, max: nat, states: seq<Sys>, steps: seq<Step>, i: nat)
    requires Run(idx, max, states, steps) && i < |steps| && SafeUntil(idx, states, steps, |steps|)
    ensures states[i].mem.asked.Keys == states[i].mem.pages.Keys && SafeStep(idx, states[i], steps[i])
    ensures Enabled(idx, max, states[i], steps[i]) && states[i + 1] == Apply(idx, max, states[i], steps[i])
  {
    hide SafeStep, Apply, Enabled;
  }

  /** A task that a worker of a clean lane holds is not gone. */
  lemma SafeHolds(idx: Index, s: Sys, gone: set<Key>, t: Task)
    requires SafeSys(idx, s, gone) && Asking(t) in s.crew
    ensures KeyOf(t) !in gone
  {
    SafeDone(idx, s, gone);
    PastHolds(idx, s, gone, Asking(t));
    assert t in Live(s.mem);
  }

  lemma StopsTask(idx: Index, max: nat, s: Sys, step: Step, gone: set<Key>)
    requires SafeSys(idx, s, gone) && s.mem.asked.Keys == s.mem.pages.Keys && Stops(max, s, step)
    ensures Sized(KeyOf(step.task)) && step.task.size < PAGE
  {
    SafeDone(idx, s, gone);
    TaskMeta(idx, s, gone, step.task);
  }

  /** One worker: no slice before it of its page is taken any more. */
  lemma AloneStopsForGood(idx: Index, max: nat, states: seq<Sys>, steps: seq<Step>, i: nat, j: nat, t: Task)
    requires SortedIndex(idx) && Run(idx, max, states, steps) && Initial(states[0]) && CleanPlan(states[0].mem.pages)
    requires SafeUntil(idx, states, steps, |steps|) && i < j < |steps|
    requires states[i].mem.asked.Keys == states[i].mem.pages.Keys && Stops(max, states[i], steps[i])
    requires |states[i].crew| <= 1 && steps[j].Takes? && Asking(t) in states[j + 1].crew && Asking(t) !in states[j].crew
    ensures !LowerTenth(t, steps[i].task)
  {
    if LowerTenth(t, steps[i].task) {
      StopsForGood(idx, max, states, steps, i, j, t);
      var u :| u in states[i].mem.inflight && u != steps[i].task && KeyOf(u) == KeyOf(t);
      InitialSafe(idx, states[0]);
      InitialInv(idx, states[0]);
      InitialProbes(states[0]);
      hide SafeSys, SafeStep, Run, SafeUntil, Initial;
      var gone := SafeAt(idx, max, states, steps, i);
      AtStep(idx, max, states, steps, i);
      OnlyOne(idx, states[i], gone, steps[i].task, u);
      assert false;
    }
  }

  lemma OnlyOne(idx: Index, s: Sys, gone: set<Key>, task: Task, u: Task)
    requires SafeSys(idx, s, gone) && u in s.mem.inflight && Asking(task) in s.crew && |s.crew| <= 1
    ensures u == task
  {
    SafeDone(idx, s, gone);
    assert CleanSys(PastSys(s, gone));
    assert s.crew[Asking(u)] == 1;
    if u != task { TwoHeld(s.crew, Asking(task), Asking(u)); }
  }

  lemma TwoHeld(crew: multiset<Worker>, v: Worker, w: Worker)
    requires v in crew && w in crew && v != w
    ensures |crew| >= 2
  {
    assert crew == crew - multiset{v, w} + multiset{v, w};
  }
}
