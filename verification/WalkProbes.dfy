/** The sampled pages: neither probe of a page whose other eight subpages stay unopened has shown a row.
    With that, walk coverage over whole runs. */
module WalkProbes {
  import opened Strings
  import opened CdxIndex
  import opened WalkState
  import opened WalkSystem
  import opened WalkCoverage
  import opened WalkSettle
  import opened WalkRuns

  // ------------------------------------------------------------------ the probes

  ghost predicate Awaited(owed: set<Task>, done: set<Key>, p: Key) {
    p !in done && exists t :: t in owed && KeyOf(t) == p
  }

  /** No answer of the probe brought a row, and it is still owed, was parked, or was answered with none. */
  ghost predicate Unshown(owed: set<Task>, done: set<Key>, h: History, p: Key) {
    p !in h.shown && (Awaited(owed, done, p) || p in h.parked || p in h.hollow)
  }

  ghost predicate SampledPage(owed: set<Task>, done: set<Key>, h: History, k: Key) {
    && Sized(k) && k.size == PAGE && k.page.Number?
    && forall j :: j in PROBES ==> Unshown(owed, done, h, Sub(k, j))
  }

  /** Both probes of every page sampled and not opened are unshown, and what is booked was answered. */
  ghost predicate Probed(owed: set<Task>, done: set<Key>, h: History) {
    && (forall k :: k in h.sampled && k !in h.unfolded ==> SampledPage(owed, done, h, k))
    && done <= h.shown + h.hollow
  }

  ghost predicate ProbesKept(s: Sys) {
    Probed(OwedBy(s.mem), s.mem.done, s.now) && Probed(OwedOn(s.disk), s.disk.done, s.saved)
  }

  // ------------------------------------------------------------------ the steps that lose a probe

  /** An answer that leaves a sampled page unopened although a probe has a row, or takes a probe off the
      queue unanswered: a probe with a row that is no longer listed as one; a silence of a page whose probe
      had shown a row before; a prune below a sampled page. */
  ghost predicate LosesProbe(m: Mem, h: History, task: Task, a: Answer)
    requires Sized(KeyOf(task))
  {
    var k := KeyOf(task);
    || (a.edge.Some? && ProbeOf(h, k) && !Opens(m, task, a))
    || (a.edge.None? && k !in h.unfolded && Subpages(task, false) != [] &&
        exists j :: j in PROBES && Sub(k, j) in h.shown)
    || (Prunes(m, task, a) && m.meta[task].parent in h.sampled - h.unfolded)
  }

  /** The slice is a probe of a page sampled and not opened. */
  predicate ProbeOf(h: History, k: Key) {
    k.page.Number? && k.page.n % 10 in PROBES && Parent(k) in h.sampled - h.unfolded
  }

  ghost predicate LosesProbeIn(max: nat, s: Sys, step: Step)
    requires s.mem.asked.Keys == s.mem.pages.Keys
  {
    match step
    case Settles(task, a, _) =>
      Sized(KeyOf(task)) && Settle(s.mem, max, task, a).outcome.Booked? && LosesProbe(s.mem, s.now, task, a)
    case KillInSettle(task, a, _, _) =>
      Sized(KeyOf(task)) && Settle(s.mem, max, task, a).outcome.Booked? && LosesProbe(s.mem, s.now, task, a)
    case _ => false
  }

  // ------------------------------------------------------------------ what keeps the probes

  /** Fewer tasks owed, if those that leave are booked or parked. */
  lemma StillProbed(owed: set<Task>, done: set<Key>, h: History, owed': set<Task>, h': History)
    requires Probed(owed, done, h)
    requires forall t :: t in owed && t !in owed' ==> KeyOf(t) in done || KeyOf(t) in h'.parked
    requires h'.sampled == h.sampled && h'.unfolded == h.unfolded && h'.shown == h.shown && h'.hollow == h.hollow
    requires h.parked <= h'.parked
    ensures Probed(owed', done, h')
  {
    forall k | k in h'.sampled && k !in h'.unfolded ensures SampledPage(owed', done, h', k) {
      assert SampledPage(owed, done, h, k);
      forall j | j in PROBES ensures Unshown(owed', done, h', Sub(k, j)) {
        assert Unshown(owed, done, h, Sub(k, j));
      }
    }
  }

  /** A key booked after its answer. */
  lemma BookedProbed(owed: set<Task>, done: set<Key>, h: History, key: Key)
    requires Probed(owed, done, h) && key in h.shown + h.hollow
    ensures Probed(owed, done + {key}, h)
  {
    forall k | k in h.sampled && k !in h.unfolded ensures SampledPage(owed, done + {key}, h, k) {
      assert SampledPage(owed, done, h, k);
      forall j | j in PROBES ensures Unshown(owed, done + {key}, h, Sub(k, j)) {
        assert Unshown(owed, done, h, Sub(k, j));
      }
    }
  }

  lemma ProbeParent(p: Key, k: Key, j: nat)
    requires Sized(k) && k.size == PAGE && k.page.Number? && j in PROBES && p == Sub(k, j)
    ensures p.page.Number? && p.page.n % 10 in PROBES && Parent(p) == k
  {
  }

  /** A booked answer keeps the probes of the pages sampled before. */
  lemma OldProbesKept(idx: Index, m: Mem, h: History, task: Task, a: Answer, k: Key, j: nat)
    requires Settling(idx, m, h, task, a) && Probed(OwedBy(m), m.done, h) && !LosesProbe(m, h, task, a)
    requires k in h.sampled && k !in After(m, h, task, a).unfolded && j in PROBES
    ensures Unshown(OwedAfter(m, task, a), m.done, After(m, h, task, a), Sub(k, j))
  {
    var h', p := After(m, h, task, a), Sub(k, j);
    assert SampledPage(OwedBy(m), m.done, h, k);
    assert Unshown(OwedBy(m), m.done, h, p);
    ProbeParent(p, k, j);
    assert task in m.meta ==> GoodMeta(idx, h, task, m.meta[task]);
    if p == KeyOf(task) {
      assert ProbeOf(h, p);
    } else if Awaited(OwedBy(m), m.done, p) {
      var t :| t in OwedBy(m) && KeyOf(t) == p;
      SplitOwed(m, task, a);
      assert GoodMeta(idx, h, t, m.meta[t]);
      assert !Gone(m, task, a, t);
    }
  }

  /** A page sampled by this answer has its two probes queued. */
  lemma NewProbesKept(idx: Index, m: Mem, h: History, task: Task, a: Answer, j: nat)
    requires Settling(idx, m, h, task, a) && Probed(OwedBy(m), m.done, h) && !LosesProbe(m, h, task, a)
    requires !Whole(a) && Subpages(task, false) != [] && a.edge.None? && KeyOf(task) !in h.unfolded && j in PROBES
    ensures SizedPage(KeyOf(task))
    ensures Unshown(OwedAfter(m, task, a), m.done, After(m, h, task, a), Sub(KeyOf(task), j))
  {
    var h', k := After(m, h, task, a), KeyOf(task);
    var p := Sub(k, j);
    SplitOwed(m, task, a);
    SubpageFor(task, false, j);
    assert KeyOf(Child(task, j)) == p && Child(task, j) in OwedAfter(m, task, a);
    assert p !in h'.shown;
  }

  predicate SizedPage(k: Key) {
    Sized(k) && k.size == PAGE && k.page.Number?
  }

  lemma SettleProbed(idx: Index, m: Mem, h: History, task: Task, a: Answer)
    requires Settling(idx, m, h, task, a) && Probed(OwedBy(m), m.done, h) && !LosesProbe(m, h, task, a)
    ensures Probed(OwedAfter(m, task, a), m.done, After(m, h, task, a))
    ensures KeyOf(task) in After(m, h, task, a).shown + After(m, h, task, a).hollow
  {
    hide LosesProbe, Unshown, Covered, GoodMem;
    var h' := After(m, h, task, a);
    forall k | k in h'.sampled && k !in h'.unfolded ensures SampledPage(OwedAfter(m, task, a), m.done, h', k) {
      if k in h.sampled {
        assert SampledPage(OwedBy(m), m.done, h, k);
        forall j | j in PROBES ensures Unshown(OwedAfter(m, task, a), m.done, h', Sub(k, j)) {
          OldProbesKept(idx, m, h, task, a, k, j);
        }
      } else {
        assert 0 in PROBES;
        NewProbesKept(idx, m, h, task, a, 0);
        forall j | j in PROBES ensures Unshown(OwedAfter(m, task, a), m.done, h', Sub(k, j)) {
          NewProbesKept(idx, m, h, task, a, j);
        }
      }
    }
  }

  // ------------------------------------------------------------------ every step

  lemma TakeProbed(idx: Index, s: Sys, early: seq<Unit>, units: seq<Unit>)
    requires Inv(idx, s) && Probed(OwedBy(s.mem), s.mem.done, s.now)
    requires forall u :: u in early + units ==> u in s.mem.pages
    ensures Take(s.mem, early, units).0.done == s.mem.done
    ensures Probed(OwedBy(Take(s.mem, early, units).0), s.mem.done, s.now)
  {
    hide Probed;
    var m, h := s.mem, s.now;
    assert forall u :: u in early || u in units ==> u in early + units;
    PopKeeps(idx, m, h, early);
    TakeSubKeeps(idx, m, h);
    PopKeeps(idx, TakeSub(m).0, h, units);
    StillProbed(OwedBy(m), m.done, h, OwedBy(Take(m, early, units).0), h);
  }

  lemma RequeueProbed(m: Mem, h: History, task: Task, front: bool)
    requires m.asked.Keys == m.pages.Keys && Probed(OwedBy(m), m.done, h)
    ensures Probed(OwedBy(Requeue(m, task, front).mem), m.done, h)
  {
    StillProbed(OwedBy(m), m.done, h, OwedBy(Requeue(m, task, front).mem), h);
  }

  lemma UnansweredProbed(max: nat, m: Mem, h: History, task: Task, a: Answer)
    requires m.asked.Keys == m.pages.Keys && Probed(OwedBy(m), m.done, h) && Sized(KeyOf(task))
    ensures var e := Unanswered(m, max, task, a); Probed(OwedBy(e.mem), m.done, Note(h, m, task, a, e))
  {
    hide Probed;
    var m1, front := UnansweredShape(max, m, h, task, a);
    assert OwedBy(m1) == OwedBy(m);
    var e := Unanswered(m, max, task, a);
    if e == Requeue(m1, task, front) && Note(h, m, task, a, e) == h {
      RequeueProbed(m1, h, task, front);
    } else {
      StillProbed(OwedBy(m), m.done, h, OwedBy(e.mem), Note(h, m, task, a, e));
    }
  }

  lemma ChangedProbed(idx: Index, max: nat, s: Sys, task: Task, a: Answer)
    requires Inv(idx, s) && Probed(OwedBy(s.mem), s.mem.done, s.now)
    requires Sized(KeyOf(task)) && Journaled(idx, s.now, KeyOf(task), a)
    requires var e := Settle(s.mem, max, task, a);
      !e.outcome.PruneKeyError? && (e.outcome.Booked? ==> !LosesProbe(s.mem, s.now, task, a))
    ensures var e := Settle(s.mem, max, task, a); var s1 := Changed(s, task, a, e);
      && Probed(OwedBy(s1.mem), s1.mem.done, s1.now)
      && (e.outcome.Booked? ==> KeyOf(task) in s1.now.shown + s1.now.hollow)
  {
    if Answered(s.mem, task, a) {
      SettleProbed(idx, s.mem, s.now, task, a);
    } else {
      UnansweredProbed(max, s.mem, s.now, task, a);
    }
  }

  lemma SaveProbed(idx: Index, s: Sys, tail: seq<Task>)
    requires Inv(idx, s) && ProbesKept(s)
    requires CanSave(s.mem) ==> Tail(s.mem, tail)
    ensures ProbesKept(Save(s, tail))
  {
    hide Probed;
    if CanSave(s.mem) { SavedOwed(s.mem, tail, Save(s, tail).disk); }
  }

  lemma SettleKeepsProbes(idx: Index, max: nat, s: Sys, step: Step)
    requires Inv(idx, s) && ProbesKept(s) && step.Settles? && Enabled(idx, max, s, step)
    requires !LosesTask(max, s, step) && !LosesProbeIn(max, s, step)
    ensures ProbesKept(Apply(idx, max, s, step))
  {
    hide Probed, LosesProbe;
    var Settles(task, a, tail) := step;
    var e := Settle(s.mem, max, task, a);
    ChangedKeeps(idx, max, s, task, a);
    ChangedProbed(idx, max, s, task, a);
    var s1 := Changed(s, task, a, e);
    if Writes(e.outcome) {
      SaveProbed(idx, s1, tail);
      if e.outcome.Booked? && CanSave(e.mem) {
        var s2 := Save(s1, tail);
        SavedOwed(s1.mem, tail, s2.disk);
        BookedProbed(OwedBy(s2.mem), s2.mem.done, s2.now, KeyOf(task));
        BookedProbed(OwedOn(s2.disk), s2.disk.done, s2.saved, KeyOf(task));
        assert OwedBy(BookKey(s2, KeyOf(task)).mem) == OwedBy(s2.mem);
        assert OwedOn(BookKey(s2, KeyOf(task)).disk) == OwedOn(s2.disk);
      }
    }
  }

  lemma KillProbed(s: Sys, plan: map<Unit, seq<Task>>)
    requires ProbesKept(s)
    ensures ProbesKept(s.(mem := Restart(s.disk, plan), now := s.saved))
  {
    hide Probed;
    RestartLoads(s.disk, plan);
    StillProbed(OwedOn(s.disk), s.disk.done, s.saved, OwedBy(Restart(s.disk, plan)), s.saved);
  }

  lemma AskedProbed(owed: set<Task>, done: set<Key>, h: History, rows: set<RowId>)
    requires Probed(owed, done, h)
    ensures Probed(owed, done, h.(received := h.received + rows))
  {
    StillProbed(owed, done, h, owed, h.(received := h.received + rows));
  }

  lemma ProbesStep(idx: Index, max: nat, s: Sys, step: Step)
    requires Inv(idx, s) && ProbesKept(s) && Enabled(idx, max, s, step)
    requires !LosesTask(max, s, step) && !LosesProbeIn(max, s, step)
    ensures ProbesKept(Apply(idx, max, s, step))
  {
    hide Probed, LosesProbe, Covered, GoodDisk;
    match step
    case Takes(early, units) => TakeProbed(idx, s, early, units);
    case Asks(task, lo, n) =>
      AskedProbed(OwedBy(s.mem), s.mem.done, s.now, Delivered(KeyOf(task), lo, n));
      AskedProbed(OwedOn(s.disk), s.disk.done, s.saved, Delivered(KeyOf(task), lo, n));
    case Settles(_, _, _) => SettleKeepsProbes(idx, max, s, step);
    case AskFails(task, _, tail) =>
      if task in s.mem.inflight {
        var e := Requeue(s.mem, task, true);
        RequeueProbed(s.mem, s.now, task, true);
        RequeueGood(idx, s, task);
        if Writes(e.outcome) { SaveProbed(idx, s.(mem := e.mem), tail); }
      }
    case Adds(u, tasks) => assert OwedBy(AddPages(s.mem, u, tasks)) == OwedBy(s.mem);
    case Kill(plan) => KillProbed(s, plan);
    case KillInSettle(task, a, tail, plan) =>
      SettleGood(idx, max, s, task, a);
      ChangedProbed(idx, max, s, task, a);
      var s1 := Changed(s, task, a, Settle(s.mem, max, task, a));
      SaveProbed(idx, s1, tail);
      KillProbed(Save(s1, tail), plan);
  }

  lemma RequeueGood(idx: Index, s: Sys, task: Task)
    requires Inv(idx, s) && task in s.mem.inflight
    ensures Inv(idx, s.(mem := Requeue(s.mem, task, true).mem))
  {
    RequeueKeeps(idx, s.mem, s.now, task, true);
  }

  lemma SettleGood(idx: Index, max: nat, s: Sys, task: Task, a: Answer)
    requires Inv(idx, s) && Sized(KeyOf(task)) && Journaled(idx, s.now, KeyOf(task), a)
    requires !Settle(s.mem, max, task, a).outcome.PruneKeyError?
    ensures Inv(idx, Changed(s, task, a, Settle(s.mem, max, task, a)))
  {
    ChangedKeeps(idx, max, s, task, a);
  }

  /** Every step keeps coverage and the probes, but a settle that raises or loses a probe. */
  lemma StepKept(idx: Index, max: nat, s: Sys, step: Step)
    requires Inv(idx, s) && ProbesKept(s) && Enabled(idx, max, s, step)
    requires !LosesTask(max, s, step) && !LosesProbeIn(max, s, step)
    ensures Inv(idx, Apply(idx, max, s, step)) && ProbesKept(Apply(idx, max, s, step))
  {
    StepKeeps(idx, max, s, step);
    ProbesStep(idx, max, s, step);
  }

  // ------------------------------------------------------------------ whole runs

  /** The other eight of two probes none of which has shown a row: each is still owed, was parked, or was
      answered with none. */
  ghost predicate Rowless(idx: Index, owed: set<Task>, done: set<Key>, h: History, r: RowId, size: nat) {
    exists k :: k in h.sampled && k.size <= size && InRest(idx, k, r) && SampledPage(owed, done, h, k)
  }

  /** Row r of a slice of this size is in a journal; in a finer slice still owed; in a slice logged as
      skipped or parked; or in the other eight of two probes that had no rows. */
  ghost predicate Explained(idx: Index, owed: set<Task>, done: set<Key>, h: History, r: RowId, size: nat) {
    || r in h.received
    || OwedFiner(idx, owed, done, r, size)
    || GivenUp(idx, h, r)
    || Rowless(idx, owed, done, h, r, size)
  }

  /** Every row of every booked slice. */
  ghost predicate AllExplained(idx: Index, owed: set<Task>, done: set<Key>, h: History) {
    forall k, r :: k in done && InSlice(idx, k, r) ==> Explained(idx, owed, done, h, r, k.size)
  }

  lemma CoveredExplained(idx: Index, owed: set<Task>, done: set<Key>, h: History)
    requires Covered(idx, owed, done, h) && Probed(owed, done, h)
    ensures AllExplained(idx, owed, done, h)
  {
    forall k, r | k in done && InSlice(idx, k, r) ensures Explained(idx, owed, done, h, r, k.size) {
      assert Accounted(idx, owed, done, h, r, k.size);
      if Unsampled(idx, h, r, k.size) {
        var q :| q in h.sampled && q !in h.unfolded && q.size <= k.size && InRest(idx, q, r);
        assert SampledPage(owed, done, h, q);
      }
    }
  }

  /** Walk coverage and crash safety: along every run in which no prune raises and no probe is lost, whatever
      the answers and wherever the kills fall, each row of each booked slice is explained, in memory and on
      disk. */
  lemma {:induction false} RunCovered(idx: Index, max: nat, states: seq<Sys>, steps: seq<Step>, n: nat)
    requires SortedIndex(idx) && Run(idx, max, states, steps) && Initial(states[0]) && n < |states|
    requires forall i :: 0 <= i < n ==>
      !LosesTask(max, states[i], steps[i]) && !LosesProbeIn(max, states[i], steps[i])
    ensures Inv(idx, states[n]) && ProbesKept(states[n])
    ensures AllExplained(idx, OwedBy(states[n].mem), states[n].mem.done, states[n].now)
    ensures AllExplained(idx, OwedOn(states[n].disk), states[n].disk.done, states[n].saved)
  {
    if n == 0 {
      InitialInv(idx, states[0]);
    } else {
      RunCovered(idx, max, states, steps, n - 1);
      StepKept(idx, max, states[n - 1], steps[n - 1]);
    }
    var s := states[n];
    CoveredExplained(idx, OwedBy(s.mem), s.mem.done, s.now);
    CoveredExplained(idx, OwedOn(s.disk), s.disk.done, s.saved);
  }
}
