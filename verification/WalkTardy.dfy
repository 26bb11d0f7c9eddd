/** A slice that was silent before the restart is asked again, by one worker, until the log books it and the walker
    does not; so the condition of `WalkSilence` is exact. */
module WalkTardy {
  import opened Strings
  import opened CdxIndex
  import opened WalkState
  import opened WalkSystem
  import opened WalkCoverage
  import opened WalkRuns
  import opened WalkProbes
  import opened WalkClean
  import opened WalkCleanRuns
  import opened WalkGone
  import opened WalkSafe
  import opened WalkAlone
  import opened WalkAgain
  import opened WalkSift
  import opened WalkReopen
  import opened WalkLog
  import opened WalkSilence
  import J = WalkJobs
  import P = WalkParked
  import W = WalkWindow
  import WalkSettle

  const SILENCE := Answer(Http(504), false, 0, None)
  const THROTTLED := Answer(Http(429), false, 0, None)

  // ------------------------------------------------------------------ silent until the log books it

  lemma NoRowAnswer(idx: Index, h: History, k: Key, a: Answer)
    requires a == SILENCE || a == THROTTLED
    ensures Journaled(idx, h, k, a)
  {
    assert Honest(idx, k, a, 0) && Delivered(k, 0, 0) == {};
  }

  /** The one worker holds the slice, not booked, and the queue can be listed. */
  ghost predicate InHand(s: Sys, task: Task) {
    && s.mem.asked.Keys == s.mem.pages.Keys && s.mem.inflight == {task} && s.crew == multiset{Asking(task)}
    && Sized(KeyOf(task)) && task.size < PAGE && KeyOf(task) !in s.mem.done
    && if task in s.mem.meta then task !in s.mem.subq && forall t :: t in s.mem.subq ==> t in s.mem.meta
       else Root(KeyOf(task)) && UnitOf(task) in s.mem.pages && s.mem.subq == []
  }

  /** Where the slice goes back to. */
  function Back(m: Mem, task: Task): seq<Unit> {
    if task in m.meta then [] else [UnitOf(task)]
  }

  lemma SilencePutsBack(max: nat, m: Mem, task: Task)
    requires m.asked.Keys == m.pages.Keys && m.inflight == {task} && Sized(KeyOf(task)) && task.size < PAGE
    requires Fails(m, KeyOf(task)) < 3
    ensures var m1 := m.(fails := m.fails[KeyOf(task) := Fails(m, KeyOf(task)) + 1]);
      Settle(m, max, task, SILENCE) == Requeue(m1, task, true)
  {
    var m1 := m.(fails := m.fails[KeyOf(task) := Fails(m, KeyOf(task)) + 1]);
    assert m1.(pace := m.pace) == m1;
  }

  lemma PutBack(m: Mem, task: Task)
    requires m.asked.Keys == m.pages.Keys && m.inflight == {task}
    requires if task in m.meta then task !in m.subq && forall t :: t in m.subq ==> t in m.meta
             else UnitOf(task) in m.pages && m.subq == []
    ensures var e := Requeue(m, task, true);
      && e.outcome.Requeued? && CanSave(e.mem) && Tail(e.mem, []) && e.mem.done == m.done && e.mem.fails == m.fails
      && e.mem.asked.Keys == e.mem.pages.Keys == m.pages.Keys && e.mem.inflight == {} && e.mem.meta == m.meta
      && (if task in m.meta then e.mem.subq == [task] + m.subq
          else e.mem.subq == [] && e.mem.pages[UnitOf(task)] == [task] + m.pages[UnitOf(task)])
  {
  }

  /** An answer that puts the slice back. */
  lemma PutsBack(w: nat, idx: Index, max: nat, s: Sys, task: Task, a: Answer, e: Effect) returns (s1: Sys)
    requires s.mem.asked.Keys == s.mem.pages.Keys && s.crew == multiset{Asking(task)} && Sized(KeyOf(task)) && w > 0
    requires Journaled(idx, s.now, KeyOf(task), a) && Settle(s.mem, max, task, a) == e && e.outcome.Requeued?
    requires CanSave(e.mem) && Tail(e.mem, [])
    ensures Goes(w, idx, max, s, Settles(task, a, []), s1) && s1.mem == e.mem && s1.crew == multiset{}
    ensures s1.now == s.now && s1.saved == s.now && s1.disk.done == s.disk.done
  {
    hide Settle, Journaled, CanSave, Tail, Pending;
    s1 := Apply(idx, max, s, Settles(task, a, []));
    assert s1.crew == multiset{};
  }

  lemma SilentOnce(w: nat, idx: Index, max: nat, s: Sys, task: Task) returns (s1: Sys)
    requires w > 0 && InHand(s, task) && Fails(s.mem, KeyOf(task)) < 3
    ensures Goes(w, idx, max, s, Settles(task, SILENCE, []), s1) && s1.mem.done == s.mem.done
    ensures s1.crew == multiset{} && s1.mem.meta == s.mem.meta && s1.mem.inflight == {}
    ensures Fails(s1.mem, KeyOf(task)) == Fails(s.mem, KeyOf(task)) + 1
    ensures s1.mem.asked.Keys == s1.mem.pages.Keys == s.mem.pages.Keys
    ensures if task in s.mem.meta then s1.mem.subq == [task] + s.mem.subq
            else s1.mem.subq == [] && s1.mem.pages[UnitOf(task)] == [task] + s.mem.pages[UnitOf(task)]
  {
    NoRowAnswer(idx, s.now, KeyOf(task), SILENCE);
    SilencePutsBack(max, s.mem, task);
    var m1 := s.mem.(fails := s.mem.fails[KeyOf(task) := Fails(s.mem, KeyOf(task)) + 1]);
    PutBack(m1, task);
    hide Settle, Journaled, Requeue, CanSave, Tail, Goes;
    s1 := PutsBack(w, idx, max, s, task, SILENCE, Requeue(m1, task, true));
  }

  lemma TakenBack(w: nat, idx: Index, max: nat, s: Sys, s1: Sys, task: Task) returns (s2: Sys)
    requires w > 0 && InHand(s, task) && s1.mem.done == s.mem.done
    requires s1.crew == multiset{} && s1.mem.meta == s.mem.meta && s1.mem.inflight == {}
    requires s1.mem.asked.Keys == s1.mem.pages.Keys == s.mem.pages.Keys
    requires if task in s.mem.meta then s1.mem.subq == [task] + s.mem.subq
             else s1.mem.subq == [] && s1.mem.pages[UnitOf(task)] == [task] + s.mem.pages[UnitOf(task)]
    ensures Goes(w, idx, max, s1, Takes([], Back(s.mem, task)), s2) && InHand(s2, task)
    ensures s2.mem.fails == s1.mem.fails
  {
    if task in s.mem.meta {
      assert s1.mem.subq[1..] == s.mem.subq;
    } else {
      assert s1.mem.pages[UnitOf(task)][1..] == s.mem.pages[UnitOf(task)];
    }
    s2 := Apply(idx, max, s1, Takes([], Back(s.mem, task)));
    assert s2.crew == multiset{Asking(task)} && s2.mem.inflight == {task};
  }

  lemma SilentRow(log: seq<J.Row>, task: Task, n: nat)
    requires J.Streak(log, KeyOf(task)) == n && task.size < PAGE
    ensures var log' := log + [RowOf(task, SILENCE)];
      J.Streak(log', KeyOf(task)) == n + 1 && (n >= 3 ==> KeyOf(task) in J.Direct(log'))
  {
    assert (log + [RowOf(task, SILENCE)])[..|log|] == log;
  }

  lemma LifeMore(log: seq<J.Row>, steps: seq<Step>, step: Step)
    requires OneLife(steps) && !step.Kill? && !step.KillInSettle?
    ensures OneLife(steps + [step]) && log + LifeLog(steps + [step]) == log + LifeLog(steps) + LifeRows(step)
  {
    assert (steps + [step])[..|steps|] == steps;
  }

  /** Silent once more, until the log books the slice. */
  lemma {:induction false} SilentUntil(w: nat, idx: Index, max: nat, log: seq<J.Row>, s0: Sys, s: Sys, steps: seq<Step>,
                                       task: Task, n: nat) returns (s': Sys, steps': seq<Step>)
    requires w > 0 && Lives(w, idx, max, s0, s, steps) && InHand(s, task)
    requires J.Streak(log + LifeLog(steps), KeyOf(task)) == n && Fails(s.mem, KeyOf(task)) < n <= 3
    ensures Lives(w, idx, max, s0, s', steps') && BooksMore(log + LifeLog(steps'), s'.mem.done)
    decreases 4 - n
  {
    hide LeadsBy, Goes, InHand, J.Streak, J.Direct, J.Owing, LifeLog, OneLife, Fails;
    assert task.size < PAGE && KeyOf(task) !in s.mem.done by { InHandParts(s, task); }
    var step := Settles(task, SILENCE, []);
    var s1 := SilentOnce(w, idx, max, s, task);
    LeadsByOn(w, idx, max, s0, s, steps, step, s1);
    LifeMore(log, steps, step);
    SilentRow(log + LifeLog(steps), task, n);
    if n == 3 {
      s', steps' := s1, steps + [step];
    } else {
      var s2 := TakenBack(w, idx, max, s, s1, task);
      var take := Takes([], Back(s.mem, task));
      LeadsByOn(w, idx, max, s0, s1, steps + [step], take, s2);
      LifeMore(log, steps + [step], take);
      SameFails(s1.mem, s2.mem, KeyOf(task));
      assert log + LifeLog(steps + [step]) + [] == log + LifeLog(steps + [step]);
      s', steps' := SilentUntil(w, idx, max, log, s0, s2, steps + [step] + [take], task, n + 1);
    }
  }

  lemma SameFails(m: Mem, m': Mem, k: Key)
    requires m'.fails == m.fails
    ensures Fails(m', k) == Fails(m, k)
  {
  }

  lemma InHandParts(s: Sys, task: Task)
    requires InHand(s, task)
    ensures task.size < PAGE && KeyOf(task) !in s.mem.done
  {
  }

  // ------------------------------------------------------------------ a slice that is owed

  /** A start of a run from a clean start: nobody at work, nothing failed. */
  ghost predicate Fresh(idx: Index, s: Sys, gone: set<Key>) {
    SafeSys(idx, s, gone) && s.mem.inflight == {} && s.crew == multiset{} && s.mem.fails == map[]
  }

  lemma {:induction false} SparedStreak(log: seq<J.Row>, steps: seq<Step>, k: Key)
    requires Sparing(steps, k)
    ensures OneLife(steps) && J.Streak(log + LifeLog(steps), k) == J.Streak(log, k)
  {
    if steps == [] {
      assert log + [] == log;
    } else {
      var front, step := steps[..|steps| - 1], steps[|steps| - 1];
      SparedStreak(log, front, k);
      var was := log + LifeLog(front);
      assert log + LifeLog(steps) == was + LifeRows(step);
      if step.Settles? {
        assert (was + LifeRows(step))[..|was|] == was;
      } else {
        assert was + [] == was;
      }
    }
  }

  lemma ExtendsAll(steps: seq<Step>, k: Key)
    requires Extends([], steps, k)
    ensures Sparing(steps, k)
  {
    assert steps[0..] == steps;
  }

  /** Any owed slice can be refused down to. */
  lemma FreshBusy(idx: Index, s: Sys, gone: set<Key>, t: Task)
    requires Fresh(idx, s, gone) && t in s.mem.subq && KeyOf(t) !in s.mem.done
    ensures Busy(s, [], multiset{}, t) && t in s.mem.meta && Subpage(t, s.mem.meta[t])
    ensures forall y :: y in s.mem.subq && y != t ==> KeyOf(y) != KeyOf(t)
  {
    var p := Past(s.mem, gone);
    assert Clean(p) && GoodSubq(p) && GoodMetas(p.meta) && KeysDiffer(Live(p)) by { FreshClean(idx, s, gone); }
    assert forall y :: y in s.mem.subq ==> y in Live(p);
    hide Fresh, Live, Clean;
    assert forall y :: y in s.mem.subq ==> Subpage(y, s.mem.meta[y]);
  }

  lemma FreshClean(idx: Index, s: Sys, gone: set<Key>)
    requires Fresh(idx, s, gone)
    ensures var p := Past(s.mem, gone); Clean(p) && GoodSubq(p) && GoodMetas(p.meta) && KeysDiffer(Live(p))
    ensures s.mem.asked.Keys == s.mem.pages.Keys && CleanPast(idx, s, gone)
  {
  }

  lemma HandFromQueue(s: Sys, t: Task)
    requires AtHand(s, [], multiset{}, t)
    ensures InHand(s, t)
  {
    assert Members([]) + {t} == {t} && multiset{} + multiset{Asking(t)} == multiset{Asking(t)};
  }

  /** The slice at hand, with the rows before it of other slices. */
  lemma HandBooksMore(w: nat, idx: Index, max: nat, s0: Sys, s: Sys, steps: seq<Step>, log: seq<J.Row>, t: Task)
    returns (s': Sys, steps': seq<Step>)
    requires w > 0 && LeadsBy(w, idx, max, s0, s, steps) && Extends([], steps, KeyOf(t)) && InHand(s, t)
    requires 1 <= J.Streak(log, KeyOf(t)) <= 3 && Fails(s.mem, KeyOf(t)) == 0
    ensures Lives(w, idx, max, s0, s', steps') && BooksMore(log + LifeLog(steps'), s'.mem.done)
  {
    hide LeadsBy, InHand, J.Streak, Fails;
    ExtendsAll(steps, KeyOf(t));
    SparedStreak(log, steps, KeyOf(t));
    s', steps' := SilentUntil(w, idx, max, log, s0, s, steps, t, J.Streak(log, KeyOf(t)));
  }

  lemma OwedBooksMore(w: nat, idx: Index, max: nat, s: Sys, gone: set<Key>, log: seq<J.Row>, t: Task)
    returns (s': Sys, steps': seq<Step>)
    requires w > 0 && Fresh(idx, s, gone) && t in s.mem.subq && Tardy(log, s.mem.done, KeyOf(t))
    ensures Lives(w, idx, max, s, s', steps') && BooksMore(log + LifeLog(steps'), s'.mem.done)
  {
    FreshBusy(idx, s, gone, t);
    LeadsHere(w, idx, max, s);
    ExtendsHere([], KeyOf(t));
    assert s.mem.fails == map[];
    hide LeadsBy, Busy, AtHand, Extends, Fresh, InHand, J.Streak, Lives, BooksMore;
    var s1, steps := RefuseUntil(w, idx, max, s, [], s, [], [], multiset{}, t, KeyOf(t));
    HandFromQueue(s1, t);
    s', steps' := HandBooksMore(w, idx, max, s, s1, steps, log, t);
  }

  // ------------------------------------------------------------------ an unopened sibling

  lemma SiblingTask(u: Task, v: Meta, k: Key) returns (r: Task)
    requires Subpage(u, v) && Sized(k) && k.page.Number? && v.parent == Parent(k) && k.page.n % 10 in REST
    requires u.page.n % 10 !in REST
    ensures r in RestOf(u) && KeyOf(r) == k && k != KeyOf(u)
  {
    r := u.(page := k.page);
    assert k.page.n / 10 == u.page.n / 10 && k.size == u.size;
    var i :| 0 <= i < |REST| && REST[i] == k.page.n % 10;
    assert RestOf(u)[i] == r;
  }

  /** The probe that can open the slice, and the slice as it would be queued. */
  lemma OpeningProbe(idx: Index, s: Sys, gone: set<Key>, k: Key) returns (u: Task, r: Task)
    requires Fresh(idx, s, gone) && Sized(k) && Reopenable(idx, s.mem, k) && Parent(k) !in s.mem.probed
    ensures u in s.mem.subq && u in s.mem.meta && IsProbe(s.mem.meta, u) && Subpage(u, s.mem.meta[u])
    ensures HasRow(idx, KeyOf(u)) && s.mem.meta[u].parent == Parent(k) && KeyOf(u) !in s.mem.done + gone
    ensures r in RestOf(u) && KeyOf(r) == k && k != KeyOf(u)
  {
    u :| u in Live(s.mem) && CanOpen(idx, s.mem.meta, u) && s.mem.meta[u].parent == Parent(k);
    hide Fresh, Live, HasRow, Reopenable, RestOf;
    FreshProbe(idx, s, gone, u);
    r := SiblingTask(u, s.mem.meta[u], k);
  }

  lemma FreshProbe(idx: Index, s: Sys, gone: set<Key>, u: Task)
    requires Fresh(idx, s, gone) && u in Live(s.mem) && IsProbe(s.mem.meta, u)
    ensures u in s.mem.subq && u.page.Number? && Subpage(u, s.mem.meta[u]) && KeyOf(u) !in s.mem.done + gone
    ensures u.page.n % 10 !in REST
    ensures forall y :: y in s.mem.subq && y in s.mem.meta && s.mem.meta[u].parent !in s.mem.probed ==>
      !Beside(y, s.mem.meta[u], s.mem.meta[y])
  {
    var m, p := s.mem, Past(s.mem, gone);
    LivePast(m, gone);
    ProbeOwed(p, u);
    assert ProbesOpen(Live(m), m.meta, m.done) && ApartMem(idx, m, gone) && Siblings(Live(p), p.meta, p.probed);
    assert Subpage(u, p.meta[u]);
    assert u.page.n % 10 in REST <==> Beside(u, p.meta[u], p.meta[u]);
    assert forall y :: y in m.subq ==> y in Live(m);
  }

  /** What stays queued once the probe is taken is clear of what its answer queues. */
  lemma FreshClear(idx: Index, s: Sys, gone: set<Key>, u: Task, k: Key, y: Task)
    requires Fresh(idx, s, gone) && u in s.mem.subq && IsProbe(s.mem.meta, u) && y in s.mem.subq && y != u
    requires k.page.Number? && k.page.n % 10 in REST && Sized(k) && Subpage(u, s.mem.meta[u])
    requires s.mem.meta[u].parent == Parent(k) && Parent(k) !in s.mem.probed
    ensures y in s.mem.meta && y !in RestOf(u) && y !in Subpages(u, true) && KeyOf(y) != k
    ensures Sized(KeyOf(y)) && y.size < PAGE
  {
    var m, p := s.mem, Past(s.mem, gone);
    LivePast(m, gone);
    FreshProbe(idx, s, gone, u);
    assert y in Live(p) && u in Live(m);
    assert y in m.meta && Subpage(y, m.meta[y]) && m.meta[y].parent in p.done by { QueuedMeta(idx, s, gone, y); }
    hide Fresh, Live, IsProbe;
    if y in RestOf(u) { RestIs(u, m.meta[u], y); }
    if y in Subpages(u, true) { WalkSettle.SubpageOf(u, true, y); }
  }

  lemma QueuedMeta(idx: Index, s: Sys, gone: set<Key>, y: Task)
    requires Fresh(idx, s, gone) && y in s.mem.subq
    ensures y in s.mem.meta && Subpage(y, s.mem.meta[y]) && s.mem.meta[y].parent in s.mem.done + gone
  {
    var p := Past(s.mem, gone);
    assert GoodSubq(p) && GoodMetas(p.meta) && ParentsBooked(Live(p), p.meta, p.done) && y in Live(p);
  }

  /** A lane in which the probe at hand can open its page. */
  ghost predicate CanShow(idx: Index, s: Sys, u: Task, r: Task) {
    && AtHand(s, [], multiset{}, u) && Distinct(s.mem.subq) && IsProbe(s.mem.meta, u)
    && Subpage(u, s.mem.meta[u]) && HasRow(idx, KeyOf(u)) && s.mem.meta[u].parent !in s.mem.probed
    && r in RestOf(u) && KeyOf(r) != KeyOf(u) && KeyOf(r) !in s.mem.done
    && forall y :: y in s.mem.subq ==>
         y !in RestOf(u) && y !in Subpages(u, true) && KeyOf(y) != KeyOf(r) && Sized(KeyOf(y)) && y.size < PAGE
  }

  /** The first row of the probe's slice. */
  lemma ShownRow(idx: Index, h: History, k: Key) returns (lo: nat, a: Answer)
    requires HasRow(idx, k)
    ensures InSlice(idx, k, RowId(ViewOf(k), lo)) && a == OneRow(idx, k, lo)
    ensures Journaled(idx, h.(received := h.received + Delivered(k, lo, 1)), k, a)
  {
    var row: RowId :| InSlice(idx, k, row);
    assert row == RowId(ViewOf(k), row.i);
    lo := FirstRow(idx, k, row.i);
    a := OneRow(idx, k, lo);
    OneRowJournaled(idx, k, lo, h);
  }

  lemma ShownOpens(idx: Index, max: nat, s: Sys, u: Task, r: Task, a: Answer)
    requires CanShow(idx, s, u, r) && a.status.Ok? && !a.complete && a.rows == 1 && a.edge.Some?
    ensures var m' := OpenedBy(s.mem, u, a);
      && Settle(s.mem, max, u, a) == Effect(m', Booked) && CanSave(m') && Tail(m', []) && m'.inflight == {}
      && Ahead(m'.(done := m'.done + {KeyOf(u)}), [], r) && m'.fails == s.mem.fails
      && m'.asked.Keys == m'.pages.Keys && s.crew == multiset{Asking(u)}
  {
    HandFromQueue(s, u);
    ProbeSettles(max, s.mem, u, a);
    assert u.page.Number? && Clear(s.mem, [], u) && Sized(KeyOf(r)) && Members([]) + {u} == {u} && Members([]) == {};
    OpenedSaves(s.mem, [], u, a);
    OpenedKeys(s.mem, u, a, [], r);
    hide Settle, OpenedBy, CanSave, Tail, Subpages, RestOf, Subpage, Ahead, Clear;
  }

  /** The probe shows a row and opens its page; the slice is queued. */
  lemma ProbeOpensSlice(w: nat, idx: Index, max: nat, s0: Sys, s: Sys, steps: seq<Step>, u: Task, r: Task)
    returns (s': Sys, steps': seq<Step>)
    requires w > 0 && LeadsBy(w, idx, max, s0, s, steps) && Extends([], steps, KeyOf(r)) && CanShow(idx, s, u, r)
    ensures LeadsBy(w, idx, max, s0, s', steps') && Extends([], steps', KeyOf(r)) && Busy(s', [], multiset{}, r)
    ensures s'.mem.fails == s.mem.fails
  {
    var k := KeyOf(r);
    assert Sized(KeyOf(u)) && HasRow(idx, KeyOf(u)) && s.mem.asked.Keys == s.mem.pages.Keys && KeyOf(u) != k;
    var lo, a := ShownRow(idx, s.now, KeyOf(u));
    ShownOpens(idx, max, s, u, r, a);
    assert Members([]) == {};
    hide LeadsBy, Goes, InSlice, Journaled, Settle, OpenedBy, CanSave, Tail, Ahead, Extends, CanShow, HasRow, KeyOf;
    RowAsked(w, idx, max, s, u, lo);
    var s1 := Rowed(s, Delivered(KeyOf(u), lo, 1));
    LeadsByOn(w, idx, max, s0, s, steps, Asks(u, lo, 1), s1);
    ExtendsOn([], steps, k, Asks(u, lo, 1));
    s' := BooksWith(w, idx, max, s1, u, a, OpenedBy(s.mem, u, a), []);
    LeadsByOn(w, idx, max, s0, s1, steps + [Asks(u, lo, 1)], Settles(u, a, []), s');
    ExtendsOn([], steps + [Asks(u, lo, 1)], k, Settles(u, a, []));
    steps' := steps + [Asks(u, lo, 1)] + [Settles(u, a, [])];
    assert s'.crew == multiset{};
  }

  lemma ReopenBooksMore(w: nat, idx: Index, max: nat, s: Sys, gone: set<Key>, log: seq<J.Row>, k: Key)
    returns (s': Sys, steps': seq<Step>)
    requires w > 0 && Fresh(idx, s, gone) && Tardy(log, s.mem.done, k)
    requires Reopenable(idx, s.mem, k) && Parent(k) !in s.mem.probed
    ensures Lives(w, idx, max, s, s', steps') && BooksMore(log + LifeLog(steps'), s'.mem.done)
  {
    var u, r := OpeningProbe(idx, s, gone, k);
    FreshBusy(idx, s, gone, u);
    LeadsHere(w, idx, max, s);
    ExtendsHere([], k);
    forall y | y in s.mem.subq && y != u
      ensures y !in RestOf(u) && y !in Subpages(u, true) && KeyOf(y) != k && Sized(KeyOf(y)) && y.size < PAGE
    {
      FreshClear(idx, s, gone, u, k, y);
    }
    assert s.mem.fails == map[];
    hide LeadsBy, Busy, Extends, Fresh, InHand, J.Streak, Lives, BooksMore, Subpages, RestOf, Subpage, HasRow,
      Reopenable;
    var s1, steps := RefuseUntil(w, idx, max, s, [], s, [], [], multiset{}, u, k);
    hide AtHand;
    QueuedOthers(s1, u);
    assert CanShow(idx, s1, u, r);
    hide CanShow;
    var s2, steps2 := ProbeOpensSlice(w, idx, max, s, s1, steps, u, r);
    BusyKeys(s2, [], multiset{}, r);
    var s3, steps3 := RefuseUntil(w, idx, max, s, [], s2, steps2, [], multiset{}, r, k);
    HandFromQueue(s3, r);
    s', steps' := HandBooksMore(w, idx, max, s, s3, steps3, log, r);
  }

  lemma QueuedOthers(s: Sys, u: Task)
    requires AtHand(s, [], multiset{}, u)
    ensures u !in s.mem.subq
  {
  }

  // ------------------------------------------------------------------ a question

  /** A start from these files. */
  ghost predicate FreshFrom(idx: Index, s: Sys, gone: set<Key>, plan: map<Unit, seq<Task>>) {
    Fresh(idx, s, gone) && s.mem == Restart(s.disk, plan) && s.now == s.saved
  }

  lemma FreshReady(idx: Index, s: Sys, gone: set<Key>, plan: map<Unit, seq<Task>>)
    requires FreshFrom(idx, s, gone, plan)
    ensures Ready(s, s.mem.subq)
  {
    FreshClean(idx, s, gone);
    CleanLines(idx, s, gone);
    hide Restart, GoodLines, SafeSys, CleanPast;
    assert s == Started(s, plan);
    StartReady(s, plan);
  }

  /** The owed subpages refused, all of them. */
  lemma {:induction false} RefuseAll(w: nat, idx: Index, max: nat, s0: Sys, s: Sys, steps: seq<Step>, q: seq<Task>,
                                     k: Key)
    returns (s': Sys, steps': seq<Step>)
    requires w > 0 && LeadsBy(w, idx, max, s0, s, steps) && Extends([], steps, k) && Ready(s, q) && k.page.Question?
    ensures LeadsBy(w, idx, max, s0, s', steps') && Extends([], steps', k) && Ready(s', [])
    ensures s'.mem.pages == s.mem.pages && s'.mem.fails == s.mem.fails && (k in s'.mem.done ==> k in s.mem.done)
    decreases |q|
  {
    if q == [] {
      s', steps' := s, steps;
    } else {
      assert q == [q[0]] + q[1..];
      assert q[0].page.Number? by { ReadyOpen(s, q); }
      hide LeadsBy, Ready, Goes, Extends;
      var s1, s2 := Refuse(w, idx, max, s, q[0], q[1..]);
      LeadsByOn(w, idx, max, s0, s, steps, Takes([], []), s1);
      ExtendsOn([], steps, k, Takes([], []));
      LeadsByOn(w, idx, max, s0, s1, steps + [Takes([], [])], Settles(q[0], REFUSED, []), s2);
      ExtendsOn([], steps + [Takes([], [])], k, Settles(q[0], REFUSED, []));
      var steps2 := steps + [Takes([], [])] + [Settles(q[0], REFUSED, [])];
      s', steps' := RefuseAll(w, idx, max, s0, s2, steps2, q[1..], k);
    }
  }

  lemma ReadyOpen(s: Sys, q: seq<Task>)
    requires Ready(s, q)
    ensures forall t :: t in q ==> t.page.Number?
  {
  }

  /** Nothing owed and nobody at work; the unit's queue holds the question. */
  ghost predicate Awaits(s: Sys, u: Unit, t: Task) {
    && s.mem.asked.Keys == s.mem.pages.Keys && s.mem.subq == [] && s.mem.inflight == {} && s.crew == multiset{}
    && s.mem.meta == map[] && u in s.mem.pages && t in s.mem.pages[u]
    && Sized(KeyOf(t)) && Root(KeyOf(t)) && t.size < PAGE && KeyOf(t) !in s.mem.done
    && forall y :: y in s.mem.pages[u] ==> Sized(KeyOf(y)) && UnitOf(y) == u && (y != t ==> KeyOf(y) != KeyOf(t))
  }

  lemma ThrottlePutsBack(max: nat, m: Mem, task: Task)
    requires m.asked.Keys == m.pages.Keys && Sized(KeyOf(task)) && task !in m.meta && UnitOf(task) in m.pages
    ensures var e := Settle(m, max, task, THROTTLED); var u := UnitOf(task);
      && e.outcome.Requeued? && e.mem.subq == m.subq && e.mem.meta == m.meta && e.mem.done == m.done
      && e.mem.inflight == m.inflight - {task} && e.mem.asked.Keys == e.mem.pages.Keys
      && e.mem.pages == m.pages[u := m.pages[u] + [task]]
      && e.mem.fails == m.fails[KeyOf(task) := Fails(m, KeyOf(task)) + 1]
  {
  }

  /** The head of the unit's queue taken. */
  lemma TakesPage(w: nat, idx: Index, max: nat, s: Sys, u: Unit, t: Task) returns (s1: Sys)
    requires w > 0 && Awaits(s, u, t)
    ensures Goes(w, idx, max, s, Takes([], [u]), s1)
    ensures var h := s.mem.pages[u][0];
      && s1.mem.asked.Keys == s1.mem.pages.Keys && s1.mem.subq == [] && s1.mem.meta == map[]
      && s1.mem.inflight == {h} && s1.crew == multiset{Asking(h)} && s1.mem.done == s.mem.done
      && s1.mem.pages == s.mem.pages[u := s.mem.pages[u][1..]] && s1.mem.fails == s.mem.fails
  {
    s1 := Apply(idx, max, s, Takes([], [u]));
    assert s1.crew == multiset{Asking(s.mem.pages[u][0])};
  }

  /** The head of the unit's queue throttled: it goes to the back. */
  lemma Turn(w: nat, idx: Index, max: nat, s: Sys, u: Unit, t: Task) returns (s1: Sys, s2: Sys)
    requires w > 0 && Awaits(s, u, t) && s.mem.pages[u][0] != t
    ensures Goes(w, idx, max, s, Takes([], [u]), s1)
    ensures Goes(w, idx, max, s1, Settles(s.mem.pages[u][0], THROTTLED, []), s2) && Awaits(s2, u, t)
    ensures s2.mem.pages[u] == s.mem.pages[u][1..] + [s.mem.pages[u][0]]
    ensures Fails(s2.mem, KeyOf(t)) == Fails(s.mem, KeyOf(t))
  {
    s1 := TakesPage(w, idx, max, s, u, t);
    var h := s.mem.pages[u][0];
    assert h in s.mem.pages[u];
    ThrottlePutsBack(max, s1.mem, h);
    NoRowAnswer(idx, s1.now, KeyOf(h), THROTTLED);
    var e := Settle(s1.mem, max, h, THROTTLED);
    assert CanSave(e.mem) && Tail(e.mem, []);
    hide Settle, Journaled, Goes, CanSave, Tail;
    s2 := PutsBack(w, idx, max, s1, h, THROTTLED, e);
    assert forall y :: y in s2.mem.pages[u] <==> y in s.mem.pages[u];
  }

  lemma TurnLast(w: nat, idx: Index, max: nat, s0: Sys, s: Sys, steps: seq<Step>, u: Unit, t: Task)
    returns (s': Sys, steps': seq<Step>)
    requires w > 0 && LeadsBy(w, idx, max, s0, s, steps) && Extends([], steps, KeyOf(t)) && Awaits(s, u, t)
    requires s.mem.pages[u][0] == t
    ensures LeadsBy(w, idx, max, s0, s', steps') && Extends([], steps', KeyOf(t)) && InHand(s', t)
    ensures Fails(s'.mem, KeyOf(t)) == Fails(s.mem, KeyOf(t))
  {
    assert t in s.mem.pages[u];
    hide Goes, LeadsBy, Extends;
    s' := TakesPage(w, idx, max, s, u, t);
    LeadsByOn(w, idx, max, s0, s, steps, Takes([], [u]), s');
    ExtendsOn([], steps, KeyOf(t), Takes([], [u]));
    steps' := steps + [Takes([], [u])];
  }

  lemma TurnOn(w: nat, idx: Index, max: nat, s0: Sys, s: Sys, steps: seq<Step>, u: Unit, t: Task)
    returns (s': Sys, steps': seq<Step>)
    requires w > 0 && LeadsBy(w, idx, max, s0, s, steps) && Extends([], steps, KeyOf(t)) && Awaits(s, u, t)
    requires s.mem.pages[u][0] != t
    ensures LeadsBy(w, idx, max, s0, s', steps') && Extends([], steps', KeyOf(t)) && Awaits(s', u, t)
    ensures s'.mem.pages[u] == s.mem.pages[u][1..] + [s.mem.pages[u][0]]
    ensures Fails(s'.mem, KeyOf(t)) == Fails(s.mem, KeyOf(t))
  {
    AwaitsHead(s, u, t);
    hide Goes, LeadsBy, Extends, Awaits, KeyOf, Fails;
    var h, s1 := s.mem.pages[u][0], *;
    s1, s' := Turn(w, idx, max, s, u, t);
    LeadsByOn(w, idx, max, s0, s, steps, Takes([], [u]), s1);
    ExtendsOn([], steps, KeyOf(t), Takes([], [u]));
    LeadsByOn(w, idx, max, s0, s1, steps + [Takes([], [u])], Settles(h, THROTTLED, []), s');
    ExtendsOn([], steps + [Takes([], [u])], KeyOf(t), Settles(h, THROTTLED, []));
    steps' := steps + [Takes([], [u])] + [Settles(h, THROTTLED, [])];
  }

  /** The unit's queue turned until the question is taken. */
  lemma {:induction false} TurnUntil(w: nat, idx: Index, max: nat, s0: Sys, s: Sys, steps: seq<Step>, u: Unit, t: Task,
                                     i: nat) returns (s': Sys, steps': seq<Step>)
    requires w > 0 && LeadsBy(w, idx, max, s0, s, steps) && Extends([], steps, KeyOf(t)) && Awaits(s, u, t)
    requires i < |s.mem.pages[u]| && s.mem.pages[u][i] == t
    ensures LeadsBy(w, idx, max, s0, s', steps') && Extends([], steps', KeyOf(t)) && InHand(s', t)
    ensures Fails(s'.mem, KeyOf(t)) == Fails(s.mem, KeyOf(t))
    decreases i
  {
    AwaitsHead(s, u, t);
    hide LeadsBy, Extends, Awaits, InHand, KeyOf, Fails;
    if s.mem.pages[u][0] == t {
      s', steps' := TurnLast(w, idx, max, s0, s, steps, u, t);
    } else {
      var s1, steps1 := TurnOn(w, idx, max, s0, s, steps, u, t);
      assert s1.mem.pages[u][i - 1] == t;
      s', steps' := TurnUntil(w, idx, max, s0, s1, steps1, u, t, i - 1);
    }
  }

  lemma AwaitsHead(s: Sys, u: Unit, t: Task)
    requires Awaits(s, u, t)
    ensures u in s.mem.pages && s.mem.pages[u] != []
    ensures var h := s.mem.pages[u][0]; h != t ==> KeyOf(h) != KeyOf(t)
  {
    assert s.mem.pages[u][0] in s.mem.pages[u];
  }

  /** A kind of no unit. */
  lemma {:induction false} NewKind(us: set<Unit>) returns (kind: string)
    ensures forall u :: u in us ==> |u.kind| < |kind|
    decreases us
  {
    if us == {} {
      kind := "";
    } else {
      var u :| u in us;
      var rest := NewKind(us - {u});
      kind := rest + u.kind + "k";
      forall v | v in us ensures |v.kind| < |kind| {
        if v != u { assert v in us - {u}; }
      }
    }
  }

  /** Whether a unit queues the question. */
  ghost predicate QueuedKey(m: Mem, k: Key) {
    exists u, t :: u in m.pages && t in m.pages[u] && KeyOf(t) == k
  }

  lemma FreshUnits(idx: Index, s: Sys, gone: set<Key>, s1: Sys, u: Unit, t: Task)
    requires Fresh(idx, s, gone) && Ready(s1, []) && s1.mem.pages == s.mem.pages && KeyOf(t) !in s1.mem.done
    requires u in s.mem.pages && t in s.mem.pages[u] && t.size < PAGE
    ensures Awaits(s1, u, t)
  {
    var p := Past(s.mem, gone);
    assert GoodUnits(p) && KeysDiffer(Live(p)) by { FreshGood(idx, s, gone); }
    hide Fresh;
    assert s1.mem.meta.Keys == {};
    forall y | y in s1.mem.pages[u] ensures Sized(KeyOf(y)) && UnitOf(y) == u && (y != t ==> KeyOf(y) != KeyOf(t)) {
      assert InUnit(p, u, y) && y in Queued(p) && t in Queued(p);
    }
    assert InUnit(p, u, t);
  }

  lemma FreshGood(idx: Index, s: Sys, gone: set<Key>)
    requires Fresh(idx, s, gone)
    ensures GoodUnits(Past(s.mem, gone)) && KeysDiffer(Live(Past(s.mem, gone)))
  {
  }

  /** A question that no unit queues is added in a unit of its own. */
  lemma AddsQuestion(w: nat, idx: Index, max: nat, s: Sys, k: Key) returns (s': Sys, u: Unit, t: Task)
    requires w > 0 && Ready(s, []) && k.page.Question? && Sized(k) && !QueuedKey(s.mem, k) && k !in s.mem.done
    ensures Goes(w, idx, max, s, Adds(u, [t]), s') && KeyOf(t) == k && Awaits(s', u, t) && s'.mem.pages[u] == [t]
    ensures s'.mem.fails == s.mem.fails
  {
    var kind := NewKind(s.mem.pages.Keys);
    t, u := Task(k.sfx, k.size, k.page, k.first, k.last, kind), Unit(k.sfx, kind);
    assert u !in s.mem.pages && s.mem.meta.Keys == {};
    NotLive(s, k);
    AddedAlone(s.mem, u, t);
    hide Ready, QueuedKey, Live, AddPages;
    s' := s.(mem := AddPages(s.mem, u, [t]));
    AddsGoes(w, idx, max, s, u, t);
  }

  lemma NotLive(s: Sys, k: Key)
    requires Ready(s, []) && !QueuedKey(s.mem, k)
    ensures forall y :: y in Live(s.mem) ==> KeyOf(y) != k
    ensures s.mem.asked.Keys == s.mem.pages.Keys && s.mem.subq == [] && s.mem.inflight == {} && s.crew == multiset{}
  {
    forall y | y in Live(s.mem) ensures KeyOf(y) != k {
      var v :| v in s.mem.pages && y in s.mem.pages[v];
    }
  }

  lemma AddedAlone(m: Mem, u: Unit, t: Task)
    requires u !in m.pages && KeyOf(t) !in m.done && m.asked.Keys == m.pages.Keys
    ensures var m' := AddPages(m, u, [t]);
      && u in m'.pages && m'.pages[u] == [t] && m'.asked.Keys == m'.pages.Keys
      && m' == m.(pages := m'.pages, asked := m'.asked)
  {
    assert [t][1..] == [] && NotDone([t], m.done) == [t];
  }

  lemma AddsGoes(w: nat, idx: Index, max: nat, s: Sys, u: Unit, t: Task)
    requires s.mem.asked.Keys == s.mem.pages.Keys && u !in s.mem.pages && u == UnitOf(t) && |s.crew| <= w
    requires Sized(KeyOf(t)) && Root(KeyOf(t)) && forall y :: y in Live(s.mem) ==> KeyOf(y) != KeyOf(t)
    ensures Goes(w, idx, max, s, Adds(u, [t]), s.(mem := AddPages(s.mem, u, [t])))
  {
    hide Live;
  }

  lemma QuestionBooksMore(w: nat, idx: Index, max: nat, s: Sys, gone: set<Key>, plan: map<Unit, seq<Task>>,
                          log: seq<J.Row>, k: Key) returns (s': Sys, steps': seq<Step>)
    requires w > 0 && FreshFrom(idx, s, gone, plan) && Tardy(log, s.mem.done, k) && k.page.Question?
    ensures Lives(w, idx, max, s, s', steps') && BooksMore(log + LifeLog(steps'), s'.mem.done)
  {
    hide SafeSys, Goes;
    FreshReady(idx, s, gone, plan);
    LeadsHere(w, idx, max, s);
    ExtendsHere([], k);
    assert s.mem.fails == map[];
    hide LeadsBy, Extends, Fresh, InHand, J.Streak, Lives, BooksMore, Ready, Restart, Goes, Awaits;
    var s1, steps := RefuseAll(w, idx, max, s, s, [], s.mem.subq, k);
    var s2, steps2, u, t := s1, steps, *, *;
    if QueuedKey(s1.mem, k) {
      u, t :| u in s1.mem.pages && t in s1.mem.pages[u] && KeyOf(t) == k;
      FreshUnits(idx, s, gone, s1, u, t);
    } else {
      s2, u, t := AddsQuestion(w, idx, max, s1, k);
      LeadsByOn(w, idx, max, s, s1, steps, Adds(u, [t]), s2);
      ExtendsOn([], steps, k, Adds(u, [t]));
      steps2 := steps + [Adds(u, [t])];
    }
    QueuedAt(s2, u, t);
    var i :| 0 <= i < |s2.mem.pages[u]| && s2.mem.pages[u][i] == t;
    var s3, steps3 := TurnUntil(w, idx, max, s, s2, steps2, u, t, i);
    s', steps' := HandBooksMore(w, idx, max, s, s3, steps3, log, t);
  }

  lemma QueuedAt(s: Sys, u: Unit, t: Task)
    requires Awaits(s, u, t)
    ensures u in s.mem.pages && t in s.mem.pages[u]
  {
  }

  // ------------------------------------------------------------------ exactly when the rebuild books more

  /** A start at which the walker is behind its log: some life of it ends with the rebuild booking more. */
  lemma BehindBooksMore(w: nat, idx: Index, max: nat, s: Sys, gone: set<Key>, plan: map<Unit, seq<Task>>,
                        log: seq<J.Row>) returns (s': Sys, steps: seq<Step>)
    requires w > 0 && FreshFrom(idx, s, gone, plan) && Behind(idx, log, s.mem)
    ensures Lives(w, idx, max, s, s', steps) && BooksMore(log + LifeLog(steps), s'.mem.done)
  {
    if BooksMore(log, s.mem.done) {
      s', steps := s, [];
      LeadsHere(w, idx, max, s);
      assert log + [] == log;
    } else {
      hide Lives, BooksMore, Fresh, Tardy, Reopenable;
      var k :| Tardy(log, s.mem.done, k) && Askable(idx, s.mem, k);
      if k.page.Question? {
        s', steps := QuestionBooksMore(w, idx, max, s, gone, plan, log, k);
      } else if t :| t in s.mem.subq && KeyOf(t) == k {
        s', steps := OwedBooksMore(w, idx, max, s, gone, log, t);
      } else {
        s', steps := ReopenBooksMore(w, idx, max, s, gone, log, k);
      }
    }
  }

  /** Some life of at most w workers from this start ends with the rebuild booking a key that the walker has not. */
  ghost predicate CanBookMore(w: nat, idx: Index, max: nat, s: Sys, log: seq<J.Row>) {
    exists s', steps :: Lives(w, idx, max, s, s', steps) && BooksMore(log + LifeLog(steps), s'.mem.done)
  }

  /** After a restart of any run from a clean start whose kills were harmless: the rebuild can come to book a key
      that the walker does not before the next kill, if and only if it can book one at once, or a slice smaller than
      a page that is not booked ends its requests with one to three silences and can be asked: it is a question, or
      owed, or an unopened sibling of a probe that is owed and has a row. */
  lemma RestartExact(w: nat, idx: Index, max: nat, states: seq<Sys>, steps: seq<Step>, rows: seq<seq<J.Row>>)
    requires w > 0 && SortedIndex(idx) && Run(idx, max, states, steps) && SafeUntil(idx, states, steps, |steps|)
    requires Initial(states[0]) && CleanPlan(states[0].mem.pages)
    requires |rows| == |steps| && Logged(idx, states, steps, rows, |steps|)
    requires steps != [] && (steps[|steps| - 1].Kill? || steps[|steps| - 1].KillInSettle?)
    ensures var s, log := states[|steps|], LogOf(rows);
      CanBookMore(w, idx, max, s, log) <==> Behind(idx, log, s.mem)
  {
    var n := |steps|;
    assert rows[..n] == rows;
    var gone := RunKnown(idx, max, states, steps, rows, n);
    AfterKill(idx, max, states, steps, gone);
    hide Run, SafeUntil, Logged, CanBookMore, Behind, FreshFrom, LogKnown, LogOf;
    StartExact(w, idx, max, states[n], gone, steps[n - 1].plan, LogOf(rows));
  }

  lemma StartExact(w: nat, idx: Index, max: nat, s: Sys, gone: set<Key>, plan: map<Unit, seq<Task>>, log: seq<J.Row>)
    requires w > 0 && FreshFrom(idx, s, gone, plan) && LogKnown(idx, log, s, gone)
    requires s.mem.fails == map[] && s.mem.inflight == {}
    ensures CanBookMore(w, idx, max, s, log) <==> Behind(idx, log, s.mem)
  {
    assert SafeSys(idx, s, gone);
    hide Lives, BooksMore, Behind, SafeSys, LogKnown, LifeLog, FreshFrom;
    if Behind(idx, log, s.mem) {
      var s', more := BehindBooksMore(w, idx, max, s, gone, plan, log);
    } else {
      forall s', more | Lives(w, idx, max, s, s', more) ensures !BooksMore(log + LifeLog(more), s'.mem.done) {
        LifeBooksNoMore(w, idx, max, s, gone, log, s', more);
      }
    }
  }

  /** Over any number of lives the log is kept track of. */
  lemma {:induction false} RunKnown(idx: Index, max: nat, states: seq<Sys>, steps: seq<Step>, rows: seq<seq<J.Row>>,
                                    n: nat)
    returns (gone: set<Key>)
    requires SortedIndex(idx) && Run(idx, max, states, steps) && n <= |steps| && SafeUntil(idx, states, steps, n)
    requires Initial(states[0]) && CleanPlan(states[0].mem.pages)
    requires |rows| == |steps| && Logged(idx, states, steps, rows, n)
    ensures SafeSys(idx, states[n], gone) && LogKnown(idx, LogOf(rows[..n]), states[n], gone)
  {
    if n == 0 {
      gone := {};
      StartsSafe(idx, states[0]);
      KnownAtFirst(idx, states[0]);
      assert rows[..0] == [];
    } else {
      var i := n - 1;
      SafeLess(idx, states, steps, i, n);
      RunAt(idx, max, states, steps, i);
      assert SafeStep(idx, states[i], steps[i]) && Logs(idx, states[i], steps[i], rows[i]);
      LogNext(rows, n);
      hide SafeSys, LogKnown, SafeStep, Logs, LogOf, Run, SafeUntil, Apply, Enabled, Initial, CleanPlan;
      var g := RunKnown(idx, max, states, steps, rows, i);
      gone := KnownStep(idx, max, states[i], steps[i], g, LogOf(rows[..i]), rows[i]);
    }
  }

  lemma AfterKill(idx: Index, max: nat, states: seq<Sys>, steps: seq<Step>, gone: set<Key>)
    requires Run(idx, max, states, steps) && SafeSys(idx, states[|steps|], gone)
    requires steps != [] && (steps[|steps| - 1].Kill? || steps[|steps| - 1].KillInSettle?)
    ensures FreshFrom(idx, states[|steps|], gone, steps[|steps| - 1].plan)
    ensures states[|steps|].mem.fails == map[] && states[|steps|].mem.inflight == {}
  {
    var n := |steps|;
    RunAt(idx, max, states, steps, n - 1);
    Killed(idx, max, states[n - 1], steps[n - 1]);
    hide Run, Apply, Enabled, SafeSys, Restart;
  }

  lemma Killed(idx: Index, max: nat, s: Sys, step: Step)
    requires s.mem.asked.Keys == s.mem.pages.Keys && Enabled(idx, max, s, step) && (step.Kill? || step.KillInSettle?)
    ensures var s' := Apply(idx, max, s, step);
      && s'.mem == Restart(s'.disk, step.plan) && s'.now == s'.saved && s'.crew == multiset{}
      && s'.mem.inflight == {} && s'.mem.fails == map[]
  {
    var s' := Apply(idx, max, s, step);
    LoadKeeps(s'.disk.pending, s'.disk.done, Reset(s'.mem.pages, s'.mem.asked));
    hide Settle, Note, Journaled, LoadPending, NotDone;
  }

  /** Over any number of lives: when no restart finds the walker behind its log, every key that the rebuild can
      book, by a terminal answer or as a page owing subpages, is in the walker's own done set at every point. */
  lemma {:induction false} LogBooksNoMore(idx: Index, max: nat, states: seq<Sys>, steps: seq<Step>,
      rows: seq<seq<J.Row>>,
                                          n: nat) returns (gone: set<Key>)
    requires SortedIndex(idx) && Run(idx, max, states, steps) && n <= |steps| && SafeUntil(idx, states, steps, n)
    requires Initial(states[0]) && CleanPlan(states[0].mem.pages)
    requires |rows| == |steps| && Logged(idx, states, steps, rows, n)
    requires forall i :: 0 < i <= n && (steps[i - 1].Kill? || steps[i - 1].KillInSettle?) ==>
      !Behind(idx, LogOf(rows[..i]), states[i].mem)
    ensures InStep(idx, LogOf(rows[..n]), states[n], gone) && !BooksMore(LogOf(rows[..n]), states[n].mem.done)
  {
    if n == 0 {
      gone := {};
      StartsSafe(idx, states[0]);
      KnownAtFirst(idx, states[0]);
      assert rows[..0] == [];
    } else {
      var i := n - 1;
      SafeLess(idx, states, steps, i, n);
      RunAt(idx, max, states, steps, i);
      assert SafeStep(idx, states[i], steps[i]) && Logs(idx, states[i], steps[i], rows[i]);
      LogNext(rows, n);
      hide Behind, SafeStep, Logs, LogOf, Run, SafeUntil, Apply, Enabled, Initial, CleanPlan, InStep;
      var g := LogBooksNoMore(idx, max, states, steps, rows, i);
      gone := OneMore(idx, max, states[i], steps[i], g, LogOf(rows[..i]), rows[i]);
    }
  }

  lemma OneMore(idx: Index, max: nat, s: Sys, step: Step, gone: set<Key>, log: seq<J.Row>, rows: seq<J.Row>)
    returns (gone': set<Key>)
    requires InStep(idx, log, s, gone) && s.mem.asked.Keys == s.mem.pages.Keys && Enabled(idx, max, s, step)
    requires SafeStep(idx, s, step) && Logs(idx, s, step, rows)
    requires step.Kill? || step.KillInSettle? ==> !Behind(idx, log + rows, Apply(idx, max, s, step).mem)
    ensures InStep(idx, log + rows, Apply(idx, max, s, step), gone')
    ensures !BooksMore(log + rows, Apply(idx, max, s, step).mem.done)
  {
    hide SafeSys, LogKnown, SafeStep, Logs, Apply, Enabled, Behind, Tracked, J.Streak;
    gone' := KnownStep(idx, max, s, step, gone, log, rows);
    if step.Kill? || step.KillInSettle? {
      Killed(idx, max, s, step);
      StartAgrees(idx, log + rows, Apply(idx, max, s, step), gone');
    } else {
      LifeStep(idx, max, s, step, gone, gone', log, rows);
    }
  }

  // ------------------------------------------------------------------ a rebuild that books more

  const PLAN := map[W.U := [W.P]]

  /** The first probe of a silent page back in the queue after its n-th silence, and taken again. */
  lemma ProbeSilent(n: nat)
    requires n < 3
    ensures Follows(W.IDX, 8, P.Failed(n, 0), Settles(W.P0, SILENCE, []), P.Back(n, 0))
    ensures Follows(W.IDX, 8, P.Back(n, 0), Takes([], [W.U]), P.Failed(n + 1, 0))
  {
    ProbeRequeues(n);
    P.TakenAgain(n, 0);
    W.QuietHonest(KeyOf(W.P0), SILENCE, P.SILENT);
    hide Journaled, Settle, Tail, CanSave, Pending;
  }

  /** A silence is no answer yet, and is the n-th failure. */
  lemma ProbeFails(n: nat)
    requires n < 3
    ensures var m := P.Failed(n, 0).mem;
      && !Answered(m, W.P0, SILENCE) && Fails(m, KeyOf(W.P0)) == n && ToFront(m.pace, 8, SILENCE.status)
      && m.(fails := m.fails[KeyOf(W.P0) := n + 1], pace := Slower(m.pace, 8, SILENCE.status)) == P.Failed(n + 1, 0).mem
  {
  }

  lemma ProbeRequeues(n: nat)
    requires n < 3
    ensures Settle(P.Failed(n, 0).mem, 8, W.P0, SILENCE) == Effect(P.Back(n, 0).mem, Requeued)
    ensures var m := P.Back(n, 0).mem; Tail(m, []) && CanSave(m) && Pending(m, []) == P.LISTED
  {
    ProbeFails(n);
    P.BackIs(n, 0, true);
    hide Book, Answered, Slower, ToFront, P.Back, P.Failed, Tail, CanSave, Pending;
  }

  lemma Reloads()
    ensures Restart(Disk(P.LISTED, {KeyOf(W.P)}), PLAN) == P.Split0()
  {
    var d, ts := Disk(P.LISTED, {KeyOf(W.P)}), [W.P0, W.P5];
    assert Lines(ts, P.METAS) == P.LISTED;
    FileLoads(d, PLAN, ts, P.METAS);
    PlanDone(d);
  }

  lemma PlanDone(d: Disk)
    requires KeyOf(W.P) in d.done
    ensures Restart(d, PLAN).pages == map[W.U := []] && Restart(d, PLAN).asked == map[W.U := 1]
  {
    assert NotDone([W.P], d.done) == [] by { assert [W.P][1..] == []; }
    hide LoadPending, NotDone;
  }

  /** The restart: the probe owed again, its three silences forgotten. */
  lemma Restarted()
    ensures Follows(W.IDX, 8, P.Back(2, 0), Kill(PLAN), P.Owing())
  {
    Reloads();
    hide Restart;
  }

  /** A run one step longer, and its log. */
  lemma Next(states: seq<Sys>, steps: seq<Step>, rows: seq<seq<J.Row>>, step: Step, s': Sys)
    returns (states': seq<Sys>, steps': seq<Step>, rows': seq<seq<J.Row>>)
    requires Run(W.IDX, 8, states, steps) && Follows(W.IDX, 8, states[|steps|], step, s') && !step.KillInSettle?
    requires |rows| == |steps| && Logged(W.IDX, states, steps, rows, |steps|)
    requires WithinUntil(1, states, steps, |steps|) && Within(1, step, s')
    ensures Run(W.IDX, 8, states', steps') && states'[0] == states[0] && states'[|steps'|] == s'
    ensures |rows'| == |steps'| && Logged(W.IDX, states', steps', rows', |steps'|)
    ensures WithinUntil(1, states', steps', |steps'|)
    ensures LogOf(rows') == LogOf(rows) + LifeRows(step)
  {
    hide Follows;
    RunWithin(1, W.IDX, 8, states, steps, step, s');
    states', steps', rows' := states + [s'], steps + [step], rows + [LifeRows(step)];
    assert rows'[..|rows|] == rows;
    assert Logs(W.IDX, states[|steps|], step, LifeRows(step));
    hide Logs, Run, WithinUntil;
    forall i | 0 <= i < |steps'| ensures Logs(W.IDX, states'[i], steps'[i], rows'[i]) {
      if i < |steps| { assert states'[i] == states[i] && steps'[i] == steps[i] && rows'[i] == rows[i]; }
    }
  }

  /** A run from a new walk's first state with its page's first probe in flight, silent n times. */
  lemma {:induction false} Silences(n: nat) returns (states: seq<Sys>, steps: seq<Step>, rows: seq<seq<J.Row>>)
    requires n <= 2
    ensures Run(W.IDX, 8, states, steps) && states[0] == P.Page() && states[|steps|] == P.Failed(n, 0)
    ensures |rows| == |steps| && Logged(W.IDX, states, steps, rows, |steps|) && WithinUntil(1, states, steps, |steps|)
    ensures J.Streak(LogOf(rows), KeyOf(W.P0)) == n
  {
    hide Follows, P.Failed, P.Back, P.Page, P.Taken, P.Owing, J.Direct, J.Streak, Apply, Logged, LogOf, LifeRows,
      WithinUntil;
    if n == 0 {
      states, steps, rows := FirstSteps();
    } else {
      states, steps, rows := Silences(n - 1);
      P.Crews(n - 1, 0);
      P.Crews(n, 0);
      ProbeSilent(n - 1);
      SilentRow(LogOf(rows), W.P0, n - 1);
      RowsOfSteps();
      ghost var log := LogOf(rows);
      states, steps, rows := Next(states, steps, rows, Settles(W.P0, SILENCE, []), P.Back(n - 1, 0));
      states, steps, rows := Next(states, steps, rows, Takes([], [W.U]), P.Failed(n, 0));
      assert log + [RowOf(W.P0, SILENCE)] + [] == log + [RowOf(W.P0, SILENCE)];
    }
  }

  lemma RowsOfSteps()
    ensures LifeRows(Settles(W.P0, SILENCE, [])) == [RowOf(W.P0, SILENCE)] && LifeRows(Takes([], [W.U])) == []
    ensures LifeRows(Kill(PLAN)) == [] && LifeRows(Settles(W.P, SILENCE, [])) == [RowOf(W.P, SILENCE)]
  {
  }

  lemma FirstSteps() returns (states: seq<Sys>, steps: seq<Step>, rows: seq<seq<J.Row>>)
    ensures Run(W.IDX, 8, states, steps) && states[0] == P.Page() && states[|steps|] == P.Failed(0, 0)
    ensures |rows| == |steps| && Logged(W.IDX, states, steps, rows, |steps|) && WithinUntil(1, states, steps, |steps|)
    ensures J.Streak(LogOf(rows), KeyOf(W.P0)) == 0
  {
    P.PageTaken();
    P.PageBooked();
    P.ProbeTaken();
    P.Crews(0, 0);
    RowsOfSteps();
    states, steps, rows := [P.Page()], [], [];
    assert Run(W.IDX, 8, states, steps) && Logged(W.IDX, states, steps, rows, 0) && LogOf(rows) == [];
    hide Follows, P.Failed, P.Page, P.Taken, P.Owing, Run, Logged, LogOf, LifeRows, J.Streak, WithinUntil;
    states, steps, rows := Next(states, steps, rows, Takes([], [W.U]), P.Taken());
    states, steps, rows := Next(states, steps, rows, Settles(W.P, SILENCE, []), P.Owing());
    states, steps, rows := Next(states, steps, rows, Takes([], [W.U]), P.Failed(0, 0));
    FirstLog(LogOf(rows));
  }

  lemma FirstLog(log: seq<J.Row>)
    requires log == [] + [] + [RowOf(W.P, SILENCE)] + []
    ensures J.Streak(log, KeyOf(W.P0)) == 0
  {
    assert log[..0] == [];
  }

  /** Three silences and a restart. */
  lemma Forgets() returns (states: seq<Sys>, steps: seq<Step>, rows: seq<seq<J.Row>>)
    ensures Run(W.IDX, 8, states, steps) && states[0] == P.Page() && states[|steps|] == P.Failed(0, 0)
    ensures |rows| == |steps| && Logged(W.IDX, states, steps, rows, |steps|) && WithinUntil(1, states, steps, |steps|)
    ensures J.Streak(LogOf(rows), KeyOf(W.P0)) == 3
  {
    states, steps, rows := Silences(2);
    P.Crews(0, 0);
    P.Crews(2, 0);
    ProbeSilent(2);
    Restarted();
    P.ProbeTaken();
    RowsOfSteps();
    SilentRow(LogOf(rows), W.P0, 2);
    hide Follows, LogOf, J.Direct, J.Streak, P.Failed, P.Back, P.Page, P.Owing, Run, LifeRows, Logged, WithinUntil;
    ghost var log := LogOf(rows) + [RowOf(W.P0, SILENCE)];
    states, steps, rows := Next(states, steps, rows, Settles(W.P0, SILENCE, []), P.Back(2, 0));
    states, steps, rows := Next(states, steps, rows, Kill(PLAN), P.Owing());
    states, steps, rows := Next(states, steps, rows, Takes([], [W.U]), P.Failed(0, 0));
    assert log + [] + [] == log;
  }

  /** Three silences, a restart and a fourth: the rebuild books the subpage, and the walker, which counts from the
      restart, does not. */
  lemma RebuildBooksMore() returns (states: seq<Sys>, steps: seq<Step>, rows: seq<seq<J.Row>>)
    ensures SortedIndex(W.IDX) && Run(W.IDX, 8, states, steps) && Initial(states[0])
    ensures |rows| == |steps| && Logged(W.IDX, states, steps, rows, |steps|) && WithinUntil(1, states, steps, |steps|)
    ensures KeyOf(W.P0) in J.Direct(LogOf(rows)) && KeyOf(W.P0) !in states[|steps|].mem.done
    ensures KeyOf(W.P0) !in states[|steps|].disk.done
  {
    P.Start();
    states, steps, rows := Forgets();
    P.Crews(0, 0);
    ProbeSilent(0);
    SilentRow(LogOf(rows), W.P0, 3);
    RowsOfSteps();
    hide Follows, LogOf, J.Direct, J.Streak, P.Failed, P.Page, Run, Initial, SortedIndex, LifeRows, Logged, WithinUntil;
    states, steps, rows := Next(states, steps, rows, Settles(W.P0, SILENCE, []), P.Back(0, 0));
    NotBooked();
  }

  lemma NotBooked()
    ensures KeyOf(W.P0) !in P.Back(0, 0).mem.done && KeyOf(W.P0) !in P.Back(0, 0).disk.done
  {
  }
}
