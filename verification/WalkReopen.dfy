/** Which kills in the window are harmful, exactly. With one worker none is; with two or more it is those after
    which some run raises: of a page of a unit, and of a subpage that a probe opened while another probe of its
    page, with a row in its slice, is left to open it again. Two workers are enough. */
module WalkReopen {
  import opened Strings
  import opened CdxIndex
  import opened WalkState
  import opened WalkSystem
  import opened WalkCoverage
  import opened WalkRuns
  import opened WalkProbes
  import opened WalkClean
  import opened WalkCleanRuns
  import opened WalkGone
  import opened WalkSafe
  import opened WalkAlone
  import opened WalkAgain
  import opened WalkSift
  import WalkSettle

  // ------------------------------------------------------------------ the first start after the kill

  /** Lines not booked are of open subpages, and two of one key are one line. */
  ghost predicate GoodLines(d: Disk) {
    && (forall i :: 0 <= i < |d.pending| ==> GoodLine(d, i))
    && (forall i, j :: 0 <= i < |d.pending| && 0 <= j < |d.pending| && GoodPair(d, i, j) ==>
          d.pending[i] == d.pending[j])
  }

  ghost predicate GoodLine(d: Disk, i: nat)
    requires i < |d.pending|
  {
    KeyOf(d.pending[i].task) in d.done || Open(d.pending[i].task, d.done)
  }

  ghost predicate GoodPair(d: Disk, i: nat, j: nat)
    requires i < |d.pending| && j < |d.pending|
  {
    KeyOf(d.pending[i].task) !in d.done && KeyOf(d.pending[i].task) == KeyOf(d.pending[j].task)
  }

  /** What a start loads. */
  lemma StartLoads(d: Disk, plan: map<Unit, seq<Task>>)
    ensures var m := Restart(d, plan);
      && Distinct(m.subq) && (forall t :: t in m.subq <==> t in m.meta)
      && (forall t :: t in m.meta ==>
            KeyOf(t) !in d.done && exists i :: 0 <= i < |d.pending| && d.pending[i] == Owed(t, m.meta[t]))
      && (forall t :: t in OwedOn(d) && KeyOf(t) !in d.done ==> t in m.meta)
  {
    var m := Restart(d, plan);
    RestartLoads(d, plan);
    LoadDistinct(d.pending, d.done, Reset(m.pages, m.asked));
  }

  lemma StartKeys(d: Disk, plan: map<Unit, seq<Task>>)
    requires GoodLines(d)
    ensures var m := Restart(d, plan);
      KeysDiffer(Members(m.subq)) && forall t :: t in m.subq ==> Open(t, d.done)
  {
    var m := Restart(d, plan);
    StartLoads(d, plan);
    hide Restart;
    forall t, u | t in m.subq && u in m.subq && KeyOf(t) == KeyOf(u) ensures t == u {
      var i :| 0 <= i < |d.pending| && d.pending[i] == Owed(t, m.meta[t]);
      var j :| 0 <= j < |d.pending| && d.pending[j] == Owed(u, m.meta[u]);
      assert GoodPair(d, i, j);
    }
    forall t | t in m.subq ensures Open(t, d.done) {
      var i :| 0 <= i < |d.pending| && d.pending[i] == Owed(t, m.meta[t]);
      assert GoodLine(d, i);
    }
  }

  /** The pages of a plan are no part of what is loaded. */
  lemma {:induction false} LoadAlike(lines: seq<Owed>, done: set<Key>, m: Mem, n: Mem)
    requires m.subq == n.subq && m.meta == n.meta
    ensures LoadPending(lines, done, m).subq == LoadPending(lines, done, n).subq
    ensures LoadPending(lines, done, m).meta == LoadPending(lines, done, n).meta
  {
    if lines != [] {
      var Owed(task, meta) := lines[0];
      if KeyOf(task) !in done && task !in m.meta {
        LoadAlike(lines[1..], done, m.(subq := m.subq + [task], meta := m.meta[task := meta]),
                  n.(subq := n.subq + [task], meta := n.meta[task := meta]));
      } else {
        LoadAlike(lines[1..], done, m, n);
      }
    }
  }

  lemma StartsAlike(d: Disk, plan: map<Unit, seq<Task>>, other: map<Unit, seq<Task>>)
    ensures Restart(d, plan).subq == Restart(d, other).subq && Restart(d, plan).meta == Restart(d, other).meta
  {
    var m, n := Restart(d, plan), Restart(d, other);
    LoadAlike(d.pending, d.done, Reset(m.pages, m.asked), Reset(n.pages, n.asked));
    hide LoadPending, NotDone;
  }

  lemma StartReady(s: Sys, plan: map<Unit, seq<Task>>)
    requires GoodLines(s.disk) && s.mem.asked.Keys == s.mem.pages.Keys
    ensures var s' := Started(s, plan); Ready(s', s'.mem.subq)
  {
    var s' := Started(s, plan);
    StartLoads(s.disk, plan);
    StartKeys(s.disk, plan);
    RestartIdle(s.disk, plan);
    forall other ensures Restart(s.disk, other).subq == s'.mem.subq && Restart(s.disk, other).meta == s'.mem.meta {
      StartsAlike(s.disk, plan, other);
    }
    hide Restart, GoodLines;
    assert Stands(s'.disk, s'.mem.subq, s'.mem.meta);
  }

  /** The file lists the task with this meta, and it is not booked. */
  ghost predicate Has(d: Disk, t: Task, v: Meta) {
    KeyOf(t) !in d.done && exists i :: 0 <= i < |d.pending| && d.pending[i] == Owed(t, v)
  }

  lemma HasLoaded(d: Disk, plan: map<Unit, seq<Task>>, t: Task, v: Meta)
    requires GoodLines(d) && Has(d, t, v)
    ensures var m := Restart(d, plan); t in m.subq && t in m.meta && m.meta[t] == v
  {
    StartLoads(d, plan);
    hide Restart, GoodLines;
    var m := Restart(d, plan);
    var i :| 0 <= i < |d.pending| && d.pending[i] == Owed(t, v);
    assert t in OwedOn(d) by { assert d.pending[i].task == t; }
    var j :| 0 <= j < |d.pending| && d.pending[j] == Owed(t, m.meta[t]);
    assert GoodLines(d) ==> (GoodPair(d, i, j) ==> d.pending[i] == d.pending[j]) by { LinesOnce(d, i, j); }
    assert GoodPair(d, i, j);
  }

  lemma LinesOnce(d: Disk, i: nat, j: nat)
    requires i < |d.pending| && j < |d.pending|
    ensures GoodLines(d) && GoodPair(d, i, j) ==> d.pending[i] == d.pending[j]
  {
  }

  // ------------------------------------------------------------------ what the kill leaves in the file

  /** The lines written in the window. */
  lemma WindowLines(idx: Index, max: nat, s: Sys, gone: set<Key>, task: Task, a: Answer, tail: seq<Task>)
    requires CleanPast(idx, s, gone) && task in s.mem.inflight && Sized(KeyOf(task))
    requires var e := Settle(s.mem, max, task, a); e.outcome.Booked? && CanSave(e.mem) && Tail(e.mem, tail)
    ensures GoodLines(WindowDisk(max, s, task, a, tail))
  {
    hide Settle, ApartMem, ApartDisk, GoneKeys, CleanDisk;
    PastBooked(max, s.mem, gone, task, a);
    var m := Settle(s.mem, max, task, a).mem;
    PastLines(m, m.done + gone + {KeyOf(task)}, tail, WindowDisk(max, s, task, a, tail));
  }

  lemma PastBooked(max: nat, m: Mem, gone: set<Key>, task: Task, a: Answer)
    requires Clean(Past(m, gone)) && task in m.inflight && Sized(KeyOf(task)) && m.asked.Keys == m.pages.Keys
    requires Settle(m, max, task, a).outcome.Booked?
    ensures var m' := Settle(m, max, task, a).mem; Clean(m'.(done := m'.done + gone + {KeyOf(task)}))
  {
    SettlePast(max, m, gone, task, a);
    CleanOutcome(max, Past(m, gone), task, a);
    hide Settle, Clean;
  }

  lemma PastLines(m: Mem, done: set<Key>, tail: seq<Task>, d: Disk)
    requires Clean(m.(done := done)) && CanSave(m) && Tail(m, tail) && d.pending == Pending(m, tail)
    ensures GoodLines(d)
  {
    hide Clean;
    CleanSaved(m.(done := done), tail);
    LinesGood(d, Disk(Pending(m, tail), done));
  }

  lemma LinesGood(d: Disk, clean: Disk)
    requires CleanDisk(clean) && clean.pending == d.pending
    ensures GoodLines(d)
  {
    forall i | 0 <= i < |d.pending| ensures GoodLine(d, i) {
      assert Subpage(clean.pending[i].task, clean.pending[i].meta);
    }
    forall i, j | 0 <= i < |d.pending| && 0 <= j < |d.pending| && GoodPair(d, i, j)
      ensures d.pending[i] == d.pending[j]
    {
      OneLine(clean, i, j);
    }
  }

  lemma OneLine(d: Disk, i: nat, j: nat)
    requires CleanDisk(d) && i < |d.pending| && j < |d.pending|
    requires KeyOf(d.pending[i].task) == KeyOf(d.pending[j].task)
    ensures i == j
  {
  }

  lemma LineHas(m: Mem, tail: seq<Task>, d: Disk, t: Task)
    requires CanSave(m) && Tail(m, tail) && d.pending == Pending(m, tail) && t in OwedBy(m) && KeyOf(t) !in d.done
    ensures Has(d, t, m.meta[t])
  {
    SavedOwed(m, tail, d);
    assert t in OwedOn(d);
    hide OwedBy, CanSave, Tail, Pending;
    var i :| 0 <= i < |d.pending| && d.pending[i].task == t;
    assert d.pending[i] == Owed(t, m.meta[t]);
  }

  lemma ParentDone(p: Sys, k: Key)
    requires CleanSys(p) && k in p.mem.done && Sized(k) && !Root(k)
    ensures k.page.Number? && Parent(k) in p.mem.done
  {
  }

  lemma SubpagesUnbooked(idx: Index, s: Sys, gone: set<Key>, task: Task, a: Answer)
    requires CleanPast(idx, s, gone) && task in s.mem.inflight && Sized(KeyOf(task))
    ensures KeyOf(task) !in s.disk.done
    ensures forall t :: t in Subpages(task, a.edge.Some?) ==> KeyOf(t) !in s.disk.done
  {
    FreshFromGone(idx, s, gone, task);
    var p := PastSys(s, gone);
    forall t | t in Subpages(task, a.edge.Some?) ensures KeyOf(t) !in s.disk.done {
      WalkSettle.SubpageOf(task, a.edge.Some?, t);
      if KeyOf(t) in p.mem.done { ParentDone(p, KeyOf(t)); }
    }
    assert s.disk.done <= p.mem.done;
  }

  lemma ChildFiled(m: Mem, task: Task, a: Answer, tail: seq<Task>, d: Disk, t: Task)
    requires Sized(KeyOf(task)) && !PruneRaises(m, task, a) && !Whole(a) && t in Subpages(task, a.edge.Some?)
    requires var m' := Split(m, task, a); CanSave(m') && Tail(m', tail) && d.pending == Pending(m', tail)
    requires KeyOf(t) !in d.done
    ensures Has(d, t, SubMeta(task, a))
  {
    WalkSettle.SplitOwed(m, task, a);
    hide Split, OwedBy, CanSave, Tail, Pending, Has;
    WalkSettle.SplitMetaIs(m, task, a, t);
    LineHas(Split(m, task, a), tail, d, t);
  }

  /** Nothing in the file is of the killed slice. */
  lemma KilledNotFiled(idx: Index, max: nat, s: Sys, gone: set<Key>, task: Task, a: Answer, tail: seq<Task>)
    requires CleanPast(idx, s, gone) && task in s.mem.inflight && Sized(KeyOf(task)) && !PruneRaises(s.mem, task, a)
    requires !Opens(s.mem, task, a)
    requires var m' := Split(s.mem, task, a); CanSave(m') && Tail(m', tail)
    ensures var d := Disk(Pending(Split(s.mem, task, a), tail), s.disk.done);
      forall t :: t in OwedOn(d) ==> KeyOf(t) != KeyOf(task)
  {
    var m, m' := s.mem, Split(s.mem, task, a);
    SavedOwed(m', tail, Disk(Pending(m', tail), s.disk.done));
    SettlePastSplit(m, gone, task, a);
    LivePast(m, gone);
    LivePast(m', gone);
    hide CleanPast, Split, Pending, CanSave, Tail;
    forall t | t in OwedBy(m') ensures KeyOf(t) != KeyOf(task) {
      NotKilled(idx, s, gone, task, a, t);
    }
  }

  lemma NotKilled(idx: Index, s: Sys, gone: set<Key>, task: Task, a: Answer, t: Task)
    requires CleanPast(idx, s, gone) && task in s.mem.inflight && Sized(KeyOf(task)) && !PruneRaises(s.mem, task, a)
    requires !Opens(s.mem, task, a) && t in OwedBy(Split(s.mem, task, a))
    ensures KeyOf(t) != KeyOf(task)
  {
    SettlePastSplit(s.mem, gone, task, a);
    LivePast(Split(s.mem, task, a), gone);
    LivePast(s.mem, gone);
    assert t in Live(Split(s.mem, task, a));
    SplitLive(Past(s.mem, gone), task, a, t);
    hide Live, Split, CleanPast, PruneRaises, RestOf, Subpages, Opens, Whole;
    if !Whole(a) && t in Subpages(task, a.edge.Some?) {
      ChildNotSelf(task, a, t);
    } else {
      OtherKey(idx, s, gone, task, t);
    }
  }

  /** The lane and the file after the kill. */
  lemma KilledParts(idx: Index, max: nat, s: Sys, step: Step)
    requires s.mem.asked.Keys == s.mem.pages.Keys && step.KillInSettle? && Enabled(idx, max, s, step)
    ensures var s0, e := Apply(idx, max, s, step), Settle(s.mem, max, step.task, step.a);
      && s0.disk == WindowDisk(max, s, step.task, step.a, step.tail) == Disk(Pending(e.mem, step.tail), s.disk.done)
      && s0.mem.asked.Keys == s0.mem.pages.Keys && s0.saved.received == s.now.received
      && Answered(s.mem, step.task, step.a) && !PruneRaises(s.mem, step.task, step.a)
      && e.mem == Split(s.mem, step.task, step.a)
  {
    NotedReceived(s.now, s.mem, step.task, step.a, Settle(s.mem, max, step.task, step.a));
    hide Note, Pending, Tail, CanSave, Journaled, Split, LoadPending, NotDone, PruneRaises;
  }

  lemma JournaledMore(idx: Index, h: History, h': History, k: Key, a: Answer)
    requires Journaled(idx, h, k, a) && h.received <= h'.received
    ensures Journaled(idx, h', k, a)
  {
    var lo: nat :| Honest(idx, k, a, lo) && Delivered(k, lo, a.rows) <= h.received;
    assert Honest(idx, k, a, lo) && Delivered(k, lo, a.rows) <= h'.received;
  }

  /** After the kill: good lines, the first new subpage among them, and no line of the killed slice. */
  lemma KilledFile(idx: Index, max: nat, s: Sys, gone: set<Key>, step: Step)
    requires SafeSys(idx, s, gone) && step.KillInSettle?
    requires s.mem.asked.Keys == s.mem.pages.Keys && Enabled(idx, max, s, step)
    requires LeavesSubpages(step.task, step.a) && !Opens(s.mem, step.task, step.a)
    ensures var d := Apply(idx, max, s, step).disk; var x := Subpages(step.task, step.a.edge.Some?)[0];
      && GoodLines(d) && Has(d, x, SubMeta(step.task, step.a))
      && KeyOf(step.task) !in d.done && forall t :: t in OwedOn(d) ==> KeyOf(t) != KeyOf(step.task)
  {
    var KillInSettle(task, a, tail, plan) := step;
    KilledParts(idx, max, s, step);
    SafeDone(idx, s, gone);
    PastHolds(idx, s, gone, Asking(task));
    hide SafeSys, CleanPast, Settle, Split, Apply, Pending, CanSave, Tail, GoodLines, Has;
    WindowLines(idx, max, s, gone, task, a, tail);
    SubpagesUnbooked(idx, s, gone, task, a);
    KilledNotFiled(idx, max, s, gone, task, a, tail);
    ChildFiled(s.mem, task, a, tail, Apply(idx, max, s, step).disk, Subpages(task, a.edge.Some?)[0]);
  }

  // ------------------------------------------------------------------ the killed slice asked again

  /** One worker holds a subpage, the other the slice it was cut from, and the queue can be listed. */
  ghost predicate Near(s: Sys, x: Task, task: Task) {
    && s.mem.asked.Keys == s.mem.pages.Keys && s.mem.inflight == {x, task} && x != task
    && s.crew == multiset{Asking(x), Asking(task)} && x in s.mem.meta
    && (forall t :: t in s.mem.subq ==> t in s.mem.meta && t != task)
    && (task in s.mem.meta ==> s.mem.meta[task].role.Rest?)
  }

  lemma NearSplits(max: nat, s: Sys, x: Task, task: Task, a: Answer)
    requires Near(s, x, task) && Sized(KeyOf(task)) && LeavesSubpages(task, a) && Answered(s.mem, task, a)
    requires x in Subpages(task, a.edge.Some?)
    ensures !PruneRaises(s.mem, task, a)
    ensures var m' := Split(s.mem, task, a);
      && Settle(s.mem, max, task, a) == Effect(m', Booked) && CanSave(m') && Tail(m', [x]) && x in m'.subq
      && m'.asked.Keys == m'.pages.Keys
  {
    var m' := Split(s.mem, task, a);
    assert m'.subq == Subpages(task, a.edge.Some?) + s.mem.subq;
    assert m'.inflight == {x};
  }

  /** Booked again, the slice queues a second copy of the subpage, and the first one's answer raises. */
  lemma NearRaises(w: nat, idx: Index, max: nat, s0: Sys, s: Sys, x: Task, task: Task, a: Answer, m0: Mem)
    requires w > 1 && Leads(w, idx, max, s0, s) && Near(s, x, task) && Sized(KeyOf(task)) && LeavesSubpages(task, a)
    requires x in Subpages(task, a.edge.Some?) && Answered(m0, task, a) && Journaled(idx, s.now, KeyOf(task), a)
    ensures CanRaise(w, idx, max, s0)
  {
    BooksAgain(idx, m0, s.now, task, a, s.mem);
    WalkSettle.SubpageOf(task, a.edge.Some?, x);
    NearSplits(max, s, x, task, a);
    hide Leads, Settle, Split, Journaled, Answered, Subpages, LeavesSubpages, CanSave, Tail, Goes;
    var s1 := BooksWith(w, idx, max, s, task, a, Split(s.mem, task, a), [x]);
    LeadsOn(w, idx, max, s0, s, Settles(task, a, [x]), s1);
    CopyRaises(w, idx, max, s0, s1, x);
  }

  // ------------------------------------------------------------------ a page

  lemma {:induction false} DistinctSize(ts: seq<Task>)
    requires Distinct(ts)
    ensures |Members(ts)| == |ts|
  {
    if ts != [] {
      assert ts == [ts[0]] + ts[1..];
      DistinctRest(ts[0], ts[1..]);
      DistinctSize(ts[1..]);
      assert Members(ts) == Members(ts[1..]) + {ts[0]};
    }
  }

  lemma OneKept(kept: seq<Task>, x: Task)
    requires Distinct(kept) && forall t :: t in kept <==> t == x
    ensures kept == [x]
  {
    DistinctSize(kept);
    assert Members(kept) == {x};
    assert kept[0] in kept;
  }

  /** The file sifted down to one subpage. */
  lemma SiftOne(w: nat, idx: Index, max: nat, s0: Sys, x: Task, v: Meta) returns (s: Sys)
    requires w > 1 && s0.mem.asked.Keys == s0.mem.pages.Keys && GoodLines(s0.disk) && Has(s0.disk, x, v)
    ensures Leads(w, idx, max, s0, s) && Ready(s, [x]) && s.mem.meta == map[x := v]
    ensures BookedFrom(s0.disk, s.mem.done) && s.now.received == s0.saved.received
  {
    var kept;
    s, kept := SiftFile(w, idx, max, s0, map[x := v]);
    hide Leads, Has, GoodLines, BookedFrom;
    OneKept(kept, x) by { ReadyDistinct(s, kept); }
  }

  lemma ReadyDistinct(s: Sys, q: seq<Task>)
    requires Ready(s, q)
    ensures Distinct(q) && forall t :: t in s.mem.meta <==> t in q
  {
  }

  /** Every key booked was booked in the file or is of one of its lines. */
  ghost predicate BookedFrom(d: Disk, done: set<Key>) {
    forall k :: k in done ==> k in d.done || exists t :: t in OwedOn(d) && KeyOf(t) == k
  }

  /** The file sifted: left are just the lines to keep. */
  lemma SiftFile(w: nat, idx: Index, max: nat, s0: Sys, keep: map<Task, Meta>) returns (s: Sys, kept: seq<Task>)
    requires w > 1 && s0.mem.asked.Keys == s0.mem.pages.Keys && GoodLines(s0.disk)
    requires forall t :: t in keep ==> Has(s0.disk, t, keep[t])
    ensures Leads(w, idx, max, s0, s) && Ready(s, kept) && s.mem.meta == keep && forall t :: t in kept <==> t in keep
    ensures BookedFrom(s0.disk, s.mem.done) && s.now.received == s0.saved.received
  {
    LeadsHere(w, idx, max, s0);
    var s1 := Started(s0, map[]);
    StartGoes(w, idx, max, s0, map[]);
    LeadsOn(w, idx, max, s0, s0, Kill(map[]), s1);
    StartReady(s0, map[]);
    forall t | t in keep ensures t in s1.mem.subq && t in s1.mem.meta && s1.mem.meta[t] == keep[t] {
      HasLoaded(s0.disk, map[], t, keep[t]);
    }
    StartOwes(s0.disk);
    hide Restart, Leads, Goes, GoodLines, Has;
    var q := s1.mem.subq;
    assert q + [] == q;
    s, kept := Sift(w, idx, max, s0, s1, q, [], keep.Keys);
    SiftedMeta(s1, q, keep, s, kept);
  }

  lemma SiftedMeta(s: Sys, q: seq<Task>, keep: map<Task, Meta>, s': Sys, kept: seq<Task>)
    requires Sifted(s, q, keep.Keys, s', kept)
    requires forall t :: t in keep ==> t in q && t in s.mem.meta && s.mem.meta[t] == keep[t]
    ensures s'.mem.meta == keep && forall t :: t in kept <==> t in keep
  {
    ReadyDistinct(s', kept);
    hide Ready;
    assert s'.mem.meta.Keys == keep.Keys;
  }

  lemma StartOwes(d: Disk)
    ensures Restart(d, map[]).done == d.done && forall t :: t in Restart(d, map[]).subq ==> t in OwedOn(d)
  {
    RestartLoads(d, map[]);
  }

  /** The plan of a start that has the page, and only the page. */
  function Having(task: Task): map<Unit, seq<Task>> {
    map[UnitOf(task) := [task]]
  }

  lemma HavingClean(task: Task)
    requires Sized(KeyOf(task)) && Root(KeyOf(task))
    ensures CleanPlan(Having(task))
  {
  }

  lemma HavingLeft(d: Disk, task: Task)
    requires KeyOf(task) !in d.done
    ensures Restart(d, Having(task)).pages == map[UnitOf(task) := [task]]
  {
    RestartIdle(d, Having(task));
    hide Restart;
    assert [task][1..] == [];
    assert NotDone([task], d.done) == [task];
  }

  lemma UnbookedStill(d: Disk, done: set<Key>, k: Key)
    requires BookedFrom(d, done) && k !in d.done && forall t :: t in OwedOn(d) ==> KeyOf(t) != k
    ensures k !in done
  {
  }

  /** A start with the page, one worker with the subpage, the other with the page. */
  lemma PageTaken(w: nat, idx: Index, max: nat, s0: Sys, s: Sys, x: Task, v: Meta, task: Task) returns (s': Sys)
    requires w > 1 && Leads(w, idx, max, s0, s) && Ready(s, [x]) && s.mem.meta == map[x := v]
    requires Sized(KeyOf(task)) && Root(KeyOf(task)) && KeyOf(task) !in s.mem.done && task != x
    ensures Leads(w, idx, max, s0, s') && Near(s', x, task) && s'.now.received == s.now.received
  {
    var u, s1 := UnitOf(task), Started(s, Having(task));
    HavingClean(task);
    StartGoes(w, idx, max, s, Having(task));
    LeadsOn(w, idx, max, s0, s, Kill(Having(task)), s1);
    StartAgain(s, [x], Having(task));
    HavingLeft(s.disk, task);
    RestartIdle(s.disk, Having(task));
    hide Leads, Goes, Restart, Stands;
    assert [x] == [x] + [];
    QueueRest(x, [], s1.mem.meta, s1.mem.done);
    var s2 := TakesHead(w, idx, max, s1, x, []);
    LeadsOn(w, idx, max, s0, s1, Takes([], []), s2);
    s' := PopPage(w, idx, max, s2, x, task);
    LeadsOn(w, idx, max, s0, s2, Takes([], [u]), s');
  }

  lemma PopPage(w: nat, idx: Index, max: nat, s: Sys, x: Task, task: Task) returns (s': Sys)
    requires w > 1 && s.mem.asked.Keys == s.mem.pages.Keys && s.mem.subq == [] && x != task
    requires s.mem.inflight == {x} && s.crew == multiset{Asking(x)} && x in s.mem.meta && task !in s.mem.meta
    requires s.mem.pages == map[UnitOf(task) := [task]]
    ensures Goes(w, idx, max, s, Takes([], [UnitOf(task)]), s') && Near(s', x, task) && s'.now == s.now
  {
    s' := Apply(idx, max, s, Takes([], [UnitOf(task)]));
    assert s'.crew == multiset{Asking(x), Asking(task)};
  }

  /** A page that queued subpages: a later start that has it leads to a call that raises. */
  lemma PageRaises(w: nat, idx: Index, max: nat, s: Sys, gone: set<Key>, step: Step)
    requires w > 1 && SafeSys(idx, s, gone) && s.mem.asked.Keys == s.mem.pages.Keys
    requires step.KillInSettle? && Enabled(idx, max, s, step) && Sized(KeyOf(step.task))
    requires Root(KeyOf(step.task)) && LeavesSubpages(step.task, step.a)
    ensures CanRaise(w, idx, max, Apply(idx, max, s, step))
  {
    var KillInSettle(task, a, tail, plan) := step;
    var x := Subpages(task, a.edge.Some?)[0];
    PageNotOwed(idx, s, gone, task);
    WalkSettle.SubpageOf(task, a.edge.Some?, x);
    KilledParts(idx, max, s, step);
    KilledFile(idx, max, s, gone, step);
    var s0 := Apply(idx, max, s, step);
    hide SafeSys, Apply, Settle, Split, Journaled, Answered, GoodLines, Has, Leads, Subpages, LeavesSubpages;
    var s1 := SiftOne(w, idx, max, s0, x, SubMeta(task, a));
    UnbookedStill(s0.disk, s1.mem.done, KeyOf(task));
    var s2 := PageTaken(w, idx, max, s0, s1, x, SubMeta(task, a), task);
    JournaledMore(idx, s.now, s2.now, KeyOf(task), a);
    NearRaises(w, idx, max, s0, s2, x, task, a, s.mem);
  }

  lemma PageNotOwed(idx: Index, s: Sys, gone: set<Key>, task: Task)
    requires SafeSys(idx, s, gone) && Root(KeyOf(task))
    ensures task !in s.mem.meta
  {
    RootNotOwed(Past(s.mem, gone).meta, task);
  }


  // ------------------------------------------------------------------ one worker, if pages were taken early

  /** A start with the page and a subpage owed; the page taken ahead of it. */
  lemma EarlyTaken(idx: Index, max: nat, s: Sys, q: seq<Task>, task: Task) returns (s1: Sys)
    requires Ready(s, q) && s.mem.pages == map[UnitOf(task) := [task]]
    ensures Follows(idx, max, s, Takes([UnitOf(task)], []), s1) && s1.crew == multiset{Asking(task)}
    ensures s1.mem.inflight == {task} && s1.mem.subq == q && s1.mem.meta == s.mem.meta && s1.mem.done == s.mem.done
    ensures s1.now == s.now && s1.mem.asked.Keys == s1.mem.pages.Keys
  {
    s1 := Apply(idx, max, s, Takes([UnitOf(task)], []));
    assert {} + {task} == {task} && s1.crew == multiset{Asking(task)};
  }

  /** Booked again, with its subpages queued a second time. */
  lemma EarlyBooked(idx: Index, max: nat, s: Sys, task: Task, a: Answer, m0: Mem) returns (s1: Sys)
    requires s.mem.asked.Keys == s.mem.pages.Keys && s.crew == multiset{Asking(task)} && s.mem.inflight == {task}
    requires Sized(KeyOf(task)) && LeavesSubpages(task, a) && task !in s.mem.meta
    requires forall t :: t in s.mem.subq ==> t in s.mem.meta
    requires Answered(m0, task, a) && Journaled(idx, s.now, KeyOf(task), a)
    ensures Follows(idx, max, s, Settles(task, a, []), s1) && s1.crew == multiset{}
    ensures s1.mem.subq == Subpages(task, a.edge.Some?) + s.mem.subq && s1.mem.done == s.mem.done + {KeyOf(task)}
    ensures s1.mem.asked.Keys == s1.mem.pages.Keys
  {
    BooksAgain(idx, m0, s.now, task, a, s.mem);
    var m' := Split(s.mem, task, a);
    assert m'.inflight == {} && CanSave(m') && Tail(m', []);
    assert Settle(s.mem, max, task, a) == Effect(m', Booked);
    hide Settle, Journaled, CanSave, Tail, Answered, LeavesSubpages;
    s1 := BooksWith(1, idx, max, s, task, a, m', []);
    assert s1.crew == multiset{};
  }

  /** A start that has the killed page, with its first subpage owed. */
  lemma EarlyStart(idx: Index, max: nat, s: Sys, gone: set<Key>, step: Step) returns (s1: Sys)
    requires SafeSys(idx, s, gone) && s.mem.asked.Keys == s.mem.pages.Keys
    requires step.KillInSettle? && Enabled(idx, max, s, step) && Sized(KeyOf(step.task))
    requires Root(KeyOf(step.task)) && LeavesSubpages(step.task, step.a)
    ensures Follows(idx, max, Apply(idx, max, s, step), Kill(Having(step.task)), s1)
    ensures Ready(s1, s1.mem.subq) && s1.mem.pages == map[UnitOf(step.task) := [step.task]]
    ensures Subpages(step.task, step.a.edge.Some?)[0] in s1.mem.subq
    ensures Journaled(idx, s1.now, KeyOf(step.task), step.a) && Answered(s.mem, step.task, step.a)
  {
    var KillInSettle(task, a, tail, plan) := step;
    PageNotOwed(idx, s, gone, task);
    KilledParts(idx, max, s, step);
    KilledFile(idx, max, s, gone, step);
    var s0 := Apply(idx, max, s, step);
    s1 := Started(s0, Having(task));
    HavingClean(task);
    hide SafeSys, Apply, Settle, Split, Journaled, Answered, GoodLines, Has, Restart, LeavesSubpages, Ready, Subpages;
    StartGoes(1, idx, max, s0, Having(task));
    StartReady(s0, Having(task));
    HasLoaded(s0.disk, Having(task), Subpages(task, a.edge.Some?)[0], SubMeta(task, a));
    HavingLeft(s0.disk, task);
    JournaledMore(idx, s.now, s1.now, KeyOf(task), a);
  }

  /** The worker takes the page early, and its first subpage is queued twice, then taken once. */
  lemma EarlyRun(idx: Index, max: nat, s1: Sys, task: Task, a: Answer, m0: Mem, x: Task) returns (s2: Sys, s3: Sys,
                 s4: Sys)
    requires Ready(s1, s1.mem.subq) && s1.mem.pages == map[UnitOf(task) := [task]] && Sized(KeyOf(task))
    requires Root(KeyOf(task)) && LeavesSubpages(task, a) && x == Subpages(task, a.edge.Some?)[0] && x in s1.mem.subq
    requires Journaled(idx, s1.now, KeyOf(task), a) && Answered(m0, task, a)
    ensures Follows(idx, max, s1, Takes([UnitOf(task)], []), s2)
    ensures Follows(idx, max, s2, Settles(task, a, []), s3) && Follows(idx, max, s3, Takes([], []), s4)
    ensures |s1.crew| <= 1 && |s2.crew| <= 1 && |s3.crew| <= 1 && |s4.crew| <= 1
    ensures s4.mem.asked.Keys == s4.mem.pages.Keys && Asking(x) in s4.crew && x in s4.mem.subq
  {
    hide *;
    SomeSubpage(task, a);
    EarlyQueue(s1, task);
    ReadyIdle(s1, s1.mem.subq);
    var q, subs := s1.mem.subq, Subpages(task, a.edge.Some?);
    s2 := EarlyTaken(idx, max, s1, q, task);
    s3 := EarlyBooked(idx, max, s2, task, a, m0);
    assert subs + q == [x] + (subs[1..] + q);
    s4 := EarlyCopy(idx, max, s3, x, subs[1..] + q);
  }

  lemma SomeSubpage(task: Task, a: Answer)
    requires Sized(KeyOf(task)) && LeavesSubpages(task, a)
    ensures Subpages(task, a.edge.Some?) != []
  {
  }

  lemma EarlyCopy(idx: Index, max: nat, s: Sys, x: Task, rest: seq<Task>) returns (s1: Sys)
    requires s.mem.asked.Keys == s.mem.pages.Keys && s.mem.subq == [x] + rest && KeyOf(x) !in s.mem.done
    requires s.crew == multiset{} && x in rest
    ensures Follows(idx, max, s, Takes([], []), s1) && s1.crew == multiset{Asking(x)} && x in s1.mem.subq
    ensures s1.mem.asked.Keys == s1.mem.pages.Keys
  {
    s1 := TakesHead(1, idx, max, s, x, rest);
    assert s1.crew == multiset{Asking(x)};
  }

  /** Were pages taken ahead of the owed subpages, one worker would be enough: the page that queued subpages is
      killed in the window, a start has it, the worker takes it early, and four steps on a call raises. */
  lemma EarlyPageRaises(idx: Index, max: nat, s: Sys, gone: set<Key>, step: Step)
    returns (s1: Sys, s2: Sys, s3: Sys, s4: Sys, last: Step)
    requires SafeSys(idx, s, gone) && s.mem.asked.Keys == s.mem.pages.Keys
    requires step.KillInSettle? && Enabled(idx, max, s, step) && Sized(KeyOf(step.task))
    requires Root(KeyOf(step.task)) && LeavesSubpages(step.task, step.a)
    ensures Follows(idx, max, Apply(idx, max, s, step), Kill(Having(step.task)), s1)
    ensures Follows(idx, max, s1, Takes([UnitOf(step.task)], []), s2)
    ensures Follows(idx, max, s2, Settles(step.task, step.a, []), s3) && Follows(idx, max, s3, Takes([], []), s4)
    ensures |s1.crew| <= 1 && |s2.crew| <= 1 && |s3.crew| <= 1 && |s4.crew| <= 1
    ensures s4.mem.asked.Keys == s4.mem.pages.Keys && Enabled(idx, max, s4, last) && Raises(max, s4, last)
  {
    var x := Subpages(step.task, step.a.edge.Some?)[0];
    WalkSettle.SubpageOf(step.task, step.a.edge.Some?, x);
    hide SafeSys, Apply, Enabled, Journaled, Answered, LeavesSubpages, Ready, Raises, Subpages, Follows;
    s1 := EarlyStart(idx, max, s, gone, step);
    s2, s3, s4 := EarlyRun(idx, max, s1, step.task, step.a, s.mem, x);
    last := Settles(x, REFUSED, []);
    CopyRefused(idx, max, s4, x);
  }

  lemma EarlyQueue(s: Sys, task: Task)
    requires Ready(s, s.mem.subq) && Root(KeyOf(task))
    ensures task !in s.mem.meta
    ensures forall t :: t in s.mem.subq ==> t in s.mem.meta && KeyOf(t) !in s.mem.done + {KeyOf(task)}
  {
  }

  // ------------------------------------------------------------------ a sibling that a probe opened

  /** The slice was opened by a probe, and this live probe of its page can open it again. */
  ghost predicate OpenedBeside(idx: Index, m: Mem, task: Task, u: Task) {
    && task in m.meta && m.meta[task].role.Rest? && u in Live(m) && CanOpen(idx, m.meta, u)
    && m.meta[u].parent == m.meta[task].parent
  }

  lemma ProbeStays(idx: Index, s: Sys, gone: set<Key>, task: Task, a: Answer, u: Task)
    requires SafeSys(idx, s, gone) && task in s.mem.inflight && Sized(KeyOf(task)) && !PruneRaises(s.mem, task, a)
    requires OpenedBeside(idx, s.mem, task, u)
    ensures var m' := Split(s.mem, task, a); u in OwedBy(m') && m'.meta[u] == s.mem.meta[u]
    ensures KeyOf(u) !in s.mem.done && u !in Subpages(task, a.edge.Some?) && u != task
  {
    var m, p := s.mem, Past(s.mem, gone);
    LivePast(m, gone);
    assert Subpage(u, p.meta[u]) && Subpage(task, p.meta[task]);
    ProbeOwed(p, u);
    WalkSettle.SplitOwed(m, task, a);
    assert ProbesOpen(Live(m), m.meta, m.done);
    if u in Subpages(task, a.edge.Some?) { WalkSettle.SubpageOf(task, a.edge.Some?, u); }
    hide CleanPast, ToldSys, Inv, ProbesKept, Split, Live;
    WalkSettle.SplitMetaIs(m, task, a, u);
  }

  /** A live subpage is owed: only pages stand in a unit's queue. */
  lemma ProbeOwed(m: Mem, u: Task)
    requires Clean(m) && u in Live(m) && u in m.meta
    ensures u in OwedBy(m)
  {
    QueuedRoot(m);
    assert Subpage(u, m.meta[u]);
  }

  lemma SiblingInRest(task: Task, v: Meta, u: Task, w: Meta)
    requires Subpage(task, v) && v.role.Rest? && Subpage(u, w) && w.role.Probe? && v.parent == w.parent
    requires task.kind == u.kind && u.page.n % 10 !in REST
    ensures task in RestOf(u) && KeyOf(task) != KeyOf(u)
  {
    var j := task.page.n % 10;
    var i :| 0 <= i < |REST| && REST[i] == j;
    assert task.page.n / 10 == u.page.n / 10;
    assert RestOf(u)[i] == task;
  }

  lemma BesideInRest(idx: Index, s: Sys, gone: set<Key>, task: Task, u: Task)
    requires SafeSys(idx, s, gone) && task in s.mem.inflight && OpenedBeside(idx, s.mem, task, u)
    ensures task in RestOf(u) && KeyOf(task) != KeyOf(u) && Subpage(u, s.mem.meta[u]) && Sized(KeyOf(task))
  {
    var m, p := s.mem, Past(s.mem, gone);
    LivePast(m, gone);
    assert task in Live(m) && OneKind(Live(m), m.meta);
    assert Subpage(u, p.meta[u]) && Subpage(task, p.meta[task]);
    assert u.page.n % 10 !in REST by {
      assert Siblings(Live(p), p.meta, p.probed);
      assert u.page.n % 10 in REST <==> Beside(u, p.meta[u], p.meta[u]);
    }
    hide CleanPast, ToldSys, Inv, ProbesKept, Live;
    SiblingInRest(task, m.meta[task], u, m.meta[u]);
  }

  /** The probe is listed too. */
  lemma ProbeFiled(idx: Index, max: nat, s: Sys, gone: set<Key>, step: Step, u: Task)
    requires SafeSys(idx, s, gone) && step.KillInSettle?
    requires s.mem.asked.Keys == s.mem.pages.Keys && Enabled(idx, max, s, step)
    requires OpenedBeside(idx, s.mem, step.task, u)
    ensures Has(Apply(idx, max, s, step).disk, u, s.mem.meta[u])
  {
    var KillInSettle(task, a, tail, plan) := step;
    KilledParts(idx, max, s, step);
    SafeDone(idx, s, gone);
    PastHolds(idx, s, gone, Asking(task));
    hide SafeSys, CleanPast, Settle, Split, Apply, Pending, CanSave, Tail, Has;
    ProbeStays(idx, s, gone, task, a, u);
    LineHas(Split(s.mem, task, a), tail, Apply(idx, max, s, step).disk, u);
  }

  lemma TwoKept(kept: seq<Task>, x: Task, u: Task)
    requires Distinct(kept) && x != u && forall t :: t in kept <==> t in {x, u}
    ensures kept == [x, u] || kept == [u, x]
  {
    DistinctSize(kept);
    assert Members(kept) == {x, u};
    assert kept[0] in kept && kept[1] in kept;
  }

  /** The file sifted down to the subpage and the probe, in this order. */
  lemma SiftPair(w: nat, idx: Index, max: nat, s0: Sys, x: Task, v: Meta, u: Task, p: Meta) returns (s: Sys)
    requires w > 1 && s0.mem.asked.Keys == s0.mem.pages.Keys && GoodLines(s0.disk) && x != u
    requires Has(s0.disk, x, v) && Has(s0.disk, u, p)
    ensures Leads(w, idx, max, s0, s) && Ready(s, [x, u]) && s.mem.meta == map[x := v, u := p]
    ensures BookedFrom(s0.disk, s.mem.done) && s.now.received == s0.saved.received
  {
    hide Leads, Ready, Has, GoodLines, BookedFrom;
    var s1, kept := SiftFile(w, idx, max, s0, map[x := v, u := p]);
    ReadyDistinct(s1, kept);
    TwoKept(kept, x, u);
    s := s1;
    if kept == [u, x] { s := TurnTwo(w, idx, max, s0, s1, x, u); }
  }

  /** So, and a new start. */
  lemma SiftTwo(w: nat, idx: Index, max: nat, s0: Sys, x: Task, v: Meta, u: Task, p: Meta) returns (s: Sys)
    requires w > 1 && s0.mem.asked.Keys == s0.mem.pages.Keys && GoodLines(s0.disk) && x != u
    requires Has(s0.disk, x, v) && Has(s0.disk, u, p) && !v.role.Rest? && !p.role.Rest?
    ensures Leads(w, idx, max, s0, s) && Ready(s, [x, u]) && s.mem.meta == map[x := v, u := p] && s.mem.probed == {}
    ensures BookedFrom(s0.disk, s.mem.done) && s.now.received == s0.saved.received
  {
    hide Leads, Ready, Has, GoodLines, BookedFrom, Goes, Restart;
    var s1 := SiftPair(w, idx, max, s0, x, v, u, p);
    s := Started(s1, map[]);
    ReadyFiles(s1, [x, u]);
    StartGoes(w, idx, max, s1, map[]);
    LeadsOn(w, idx, max, s0, s1, Kill(map[]), s);
    StartAgain(s1, [x, u], map[]);
    RestartIdle(s1.disk, map[]);
    NothingProbed(s1.disk);
  }

  lemma ReadyFiles(s: Sys, q: seq<Task>)
    requires Ready(s, q)
    ensures s.saved.received == s.now.received && s.mem.done == s.disk.done && s.mem.asked.Keys == s.mem.pages.Keys
  {
  }

  lemma NothingProbed(d: Disk)
    ensures (forall t :: t in Restart(d, map[]).meta ==> !Restart(d, map[]).meta[t].role.Rest?) ==>
      Restart(d, map[]).probed == {}
  {
  }

  lemma TurnTwo(w: nat, idx: Index, max: nat, s0: Sys, s: Sys, x: Task, u: Task) returns (s': Sys)
    requires w > 1 && Leads(w, idx, max, s0, s) && Ready(s, [u, x])
    ensures Leads(w, idx, max, s0, s') && Ready(s', [x, u]) && s'.mem.meta == s.mem.meta
    ensures s'.mem.done == s.mem.done && s'.now.received == s.now.received
  {
    hide Leads, Goes, Ready;
    assert [u, x] + [] == [u, x] && [x] + [] + [u] == [x, u];
    var s1, s2, s3, s4 := Rotate(w, idx, max, s, u, x, []);
    LeadsOn(w, idx, max, s0, s, Takes([], []), s1);
    LeadsOn(w, idx, max, s0, s1, Takes([], []), s2);
    LeadsOn(w, idx, max, s0, s2, AskFails(x, false, [u]), s3);
    LeadsOn(w, idx, max, s0, s3, Kill(map[]), s4);
    s' := s4;
  }

  // ------------------------------------------------------------------ the probe opens its page again

  lemma {:induction false} FirstRow(idx: Index, k: Key, n: nat) returns (lo: nat)
    requires InSlice(idx, k, RowId(ViewOf(k), n))
    ensures lo <= n && InSlice(idx, k, RowId(ViewOf(k), lo))
    ensures forall r: RowId :: InSlice(idx, k, r) ==> lo <= r.i
  {
    if i: nat :| i < n && InSlice(idx, k, RowId(ViewOf(k), i)) {
      lo := FirstRow(idx, k, i);
    } else {
      lo := n;
      forall r: RowId | InSlice(idx, k, r) ensures lo <= r.i {
        assert r == RowId(ViewOf(k), r.i);
      }
    }
  }

  /** The first row of the slice arrives, and no more. */
  function OneRow(idx: Index, k: Key, lo: nat): Answer
    requires Exists(idx, RowId(ViewOf(k), lo))
  {
    var u := At(idx, RowId(ViewOf(k), lo)).urlkey;
    Answer(Ok, false, 1, Some(Edge(u, u)))
  }

  lemma OneRowJournaled(idx: Index, k: Key, lo: nat, h: History)
    requires InSlice(idx, k, RowId(ViewOf(k), lo)) && forall r: RowId :: InSlice(idx, k, r) ==> lo <= r.i
    ensures Journaled(idx, h.(received := h.received + Delivered(k, lo, 1)), k, OneRow(idx, k, lo))
  {
    var a := OneRow(idx, k, lo);
    assert Honest(idx, k, a, lo);
  }

  /** The lane once the probe has shown a row. */
  ghost function OpenedBy(m: Mem, u: Task, a: Answer): Mem
    requires Sized(KeyOf(u)) && u.page.Number? && u in m.meta
  {
    var subs, rest, p := Subpages(u, true), RestOf(u), m.meta[u].parent;
    m.(inflight := m.inflight - {u}, pace := Pace(0, 0, 0), probed := m.probed + {p},
       meta := WithMeta(WithMeta(m.meta - {u}, rest, Meta(Rest, p, "")), subs, SubMeta(u, a)),
       subq := subs + (rest + m.subq))
  }

  lemma ProbeSettles(max: nat, m: Mem, u: Task, a: Answer)
    requires m.asked.Keys == m.pages.Keys && Sized(KeyOf(u)) && u.page.Number? && IsProbe(m.meta, u)
    requires m.meta[u].parent !in m.probed
    requires a.status.Ok? && !a.complete && a.rows == 1 && a.edge.Some?
    ensures Settle(m, max, u, a) == Effect(OpenedBy(m, u, a), Booked)
  {
    hide WithMeta, Subpages, RestOf;
  }

  /** What is queued and held besides is no subpage of the probe and no sibling. */
  ghost predicate Clear(m: Mem, held: seq<Task>, u: Task)
    requires Sized(KeyOf(u)) && u.page.Number?
  {
    && Distinct(m.subq) && Distinct(held) && (forall t :: t in held ==> t !in m.subq)
    && forall t :: t in m.subq || t in held ==>
         t in m.meta && t != u && t !in RestOf(u) && t !in Subpages(u, true)
  }

  lemma OpenedQueue(m: Mem, u: Task, a: Answer, v: Meta, held: seq<Task>)
    requires u in m.meta && m.meta[u] == v && Subpage(u, v) && v.role.Probe? && a.edge.Some? && Clear(m, held, u)
    ensures var m' := OpenedBy(m, u, a);
      && Distinct(m'.subq) && m'.subq == Subpages(u, true) + (RestOf(u) + m.subq)
      && (forall t :: t in m'.subq ==> t in m'.meta && t !in held)
      && (forall t :: t in RestOf(u) ==> t in m'.subq && m'.meta[t].role.Rest?)
      && (forall t :: t in m.meta && t != u ==> t in m'.meta)
  {
    var subs, rest := Subpages(u, true), RestOf(u);
    RestShape(u, v);
    forall t | t in subs ensures t !in rest {
      WalkSettle.SubpageOf(u, true, t);
    }
    SubsDistinct(u, a);
    DistinctConcat(rest, m.subq);
    DistinctConcat(subs, rest + m.subq);
  }

  lemma SubsDistinct(u: Task, a: Answer)
    requires Sized(KeyOf(u)) && u.page.Number? && a.edge.Some?
    ensures Distinct(Subpages(u, true))
  {
    if Subpages(u, true) != [] { SubsShape(u, a); }
  }

  /** A row asked for and not yet told of. */
  ghost function Rowed(s: Sys, rows: set<RowId>): Sys {
    s.(now := s.now.(received := s.now.received + rows), saved := s.saved.(received := s.saved.received + rows))
  }

  lemma RowAsked(w: nat, idx: Index, max: nat, s: Sys, u: Task, lo: nat)
    requires s.mem.asked.Keys == s.mem.pages.Keys && |s.crew| <= w
    requires InSlice(idx, KeyOf(u), RowId(ViewOf(KeyOf(u)), lo))
    ensures Goes(w, idx, max, s, Asks(u, lo, 1), Rowed(s, Delivered(KeyOf(u), lo, 1)))
  {
  }

  /** The probe and the subpage, each with a worker. */
  ghost predicate Both(s: Sys, x: Task, u: Task) {
    && s.mem.asked.Keys == s.mem.pages.Keys && s.mem.subq == [] && s.mem.inflight == {x, u} && x != u
    && s.crew == multiset{Asking(x), Asking(u)} && x in s.mem.meta && IsProbe(s.mem.meta, u)
    && Subpage(u, s.mem.meta[u]) && s.mem.probed == {} && s.mem.meta.Keys == {x, u}
  }

  lemma BothTaken(w: nat, idx: Index, max: nat, s0: Sys, s: Sys, x: Task, u: Task) returns (s': Sys)
    requires w > 1 && Leads(w, idx, max, s0, s) && Ready(s, [x, u]) && s.mem.probed == {}
    requires s.mem.meta.Keys == {x, u} && IsProbe(s.mem.meta, u) && Subpage(u, s.mem.meta[u])
    ensures Leads(w, idx, max, s0, s') && Both(s', x, u) && s'.mem.done == s.mem.done
    ensures s'.mem.meta == s.mem.meta && s'.now == s.now
  {
    hide Leads, Goes, Stands, Subpage, OpenQueue;
    assert [x, u] + [] == [x, u];
    var s1, s2 := HoldTwo(w, idx, max, s, x, u, []);
    LeadsOn(w, idx, max, s0, s, Takes([], []), s1);
    LeadsOn(w, idx, max, s0, s1, Takes([], []), s2);
    s' := s2;
  }

  lemma OpenedSaves(m: Mem, held: seq<Task>, u: Task, a: Answer)
    requires u in m.meta && Subpage(u, m.meta[u]) && IsProbe(m.meta, u) && a.edge.Some? && Clear(m, held, u)
    requires m.inflight == Members(held) + {u}
    ensures var m' := OpenedBy(m, u, a); CanSave(m') && Tail(m', held) && m'.inflight == Members(held)
    ensures var m' := OpenedBy(m, u, a);
      m'.done == m.done && m'.pages == m.pages && m'.asked == m.asked && m'.fails == m.fails
  {
    OpenedQueue(m, u, a, m.meta[u], held);
    hide WithMeta, Subpages, RestOf;
  }

  /** What the probe's answer queues: subpages of its own, and the eight siblings. */
  lemma OpenedKeys(m: Mem, u: Task, a: Answer, held: seq<Task>, task: Task)
    requires IsProbe(m.meta, u) && Subpage(u, m.meta[u]) && a.edge.Some? && Clear(m, held, u) && task in RestOf(u)
    requires Sized(KeyOf(task)) && KeyOf(task) != KeyOf(u) && KeyOf(task) !in m.done
    requires forall y :: y in m.subq ==> Sized(KeyOf(y)) && y.size < PAGE && KeyOf(y) != KeyOf(task)
    ensures var m' := OpenedBy(m, u, a);
      Ahead(m'.(done := m'.done + {KeyOf(u)}), held, task) && m'.meta[task].role.Rest?
  {
    OpenedQueue(m, u, a, m.meta[u], held);
    var q := OpenedBy(m, u, a).subq;
    assert task in q;
    forall t | t in q ensures Sized(KeyOf(t)) && t.size < PAGE && (KeyOf(t) == KeyOf(task) ==> t == task) {
      if t in Subpages(u, true) || t in RestOf(u) { OpenedKey(u, m.meta[u], t, task); }
    }
    hide Subpages, RestOf, OpenedBy, Distinct, KeyOf, Subpage;
  }

  lemma OpenedKey(u: Task, v: Meta, t: Task, task: Task)
    requires Subpage(u, v) && task in RestOf(u) && (t in Subpages(u, true) || t in RestOf(u))
    ensures Sized(KeyOf(t)) && t.size < PAGE && (KeyOf(t) == KeyOf(task) ==> t == task)
  {
    assert task.kind == u.kind && task.size == u.size;
    if t in Subpages(u, true) {
      WalkSettle.SubpageOf(u, true, t);
    } else {
      assert t.kind == u.kind;
    }
  }

  lemma PartNotOpened(x: Task, u: Task, v: Meta, task: Task)
    requires Subpage(u, v) && task in RestOf(u) && Sized(KeyOf(task)) && x in Subpages(task, true)
    ensures KeyOf(task) != KeyOf(u) ==> x != u && x !in RestOf(u) && x !in Subpages(u, true)
  {
    WalkSettle.SubpageOf(task, true, x);
    assert task.size == u.size && task.kind == u.kind;
    if x in Subpages(u, true) { WalkSettle.SubpageOf(u, true, x); }
  }

  /** The probe's answer queues the killed slice again, beside its subpage in flight. */
  lemma ProbeReopens(w: nat, idx: Index, max: nat, s0: Sys, s: Sys, x: Task, u: Task, task: Task) returns (s': Sys)
    requires w > 1 && Leads(w, idx, max, s0, s) && Both(s, x, u) && HasRow(idx, KeyOf(u))
    requires task in RestOf(u) && KeyOf(task) != KeyOf(u) && KeyOf(task) !in s.mem.done
    requires Sized(KeyOf(task)) && x in Subpages(task, true)
    ensures Leads(w, idx, max, s0, s') && Busy(s', [x], multiset{Asking(x)}, task) && s.now.received <= s'.now.received
    ensures task in s'.mem.meta && s'.mem.meta[task].role.Rest?
  {
    hide WithMeta, Settle, Follows;
    var r: RowId :| InSlice(idx, KeyOf(u), r);
    assert r == RowId(ViewOf(KeyOf(u)), r.i);
    var lo := FirstRow(idx, KeyOf(u), r.i);
    var a, s1 := OneRow(idx, KeyOf(u), lo), Rowed(s, Delivered(KeyOf(u), lo, 1));
    RowAsked(w, idx, max, s, u, lo);
    OneRowJournaled(idx, KeyOf(u), lo, s.now);
    ProbeSettles(max, s.mem, u, a);
    PartNotOpened(x, u, s.mem.meta[u], task);
    assert Members([x]) == {x} && {x} + {u} == {x, u};
    assert Clear(s.mem, [x], u);
    OpenedSaves(s.mem, [x], u, a);
    OpenedKeys(s.mem, u, a, [x], task);
    hide Leads, Goes, InSlice, Journaled, Settle, OpenedBy, CanSave, Tail, Subpages, RestOf, Subpage, Ahead, Clear;
    LeadsOn(w, idx, max, s0, s, Asks(u, lo, 1), s1);
    s' := BooksWith(w, idx, max, s1, u, a, OpenedBy(s.mem, u, a), [x]);
    LeadsOn(w, idx, max, s0, s1, Settles(u, a, [x]), s');
    assert s'.crew == multiset{Asking(x)};
  }

  lemma RefusedNear(w: nat, idx: Index, max: nat, s0: Sys, s: Sys, x: Task, task: Task) returns (s': Sys)
    requires w > 1 && Leads(w, idx, max, s0, s) && Busy(s, [x], multiset{Asking(x)}, task)
    requires task in s.mem.meta && s.mem.meta[task].role.Rest?
    ensures Leads(w, idx, max, s0, s') && Near(s', x, task) && s'.now.received == s.now.received
  {
    var steps :| LeadsBy(w, idx, max, s0, s, steps);
    ExtendsHere(steps, KeyOf(task));
    hide LeadsBy, Busy, Extends;
    var steps';
    BusyKeys(s, [x], multiset{Asking(x)}, task);
    s', steps' := RefuseUntil(w, idx, max, s0, steps, s, steps, [x], multiset{Asking(x)}, task, KeyOf(task));
    assert multiset{Asking(x)} + multiset{Asking(task)} == multiset{Asking(x), Asking(task)};
    assert x in [x] && Members([x]) == {x};
  }

  lemma CutOnly(task: Task, a: Answer, u: Task)
    requires Sized(KeyOf(task)) && LeavesSubpages(task, a) && u.page.Number? && u.size < PAGE && task in RestOf(u)
    ensures a.edge.Some? && var x := Subpages(task, true)[0]; x in Subpages(task, true) && x != u && x != task
  {
    assert task.size == u.size;
    WalkSettle.SubpageOf(task, true, Subpages(task, true)[0]);
  }

  /** From a file with the subpage and the probe, but not the slice, the slice is asked again and some call raises. */
  lemma ReopenRaises(w: nat, idx: Index, max: nat, s0: Sys, x: Task, u: Task, p: Meta, task: Task, a: Answer, m0: Mem)
    requires w > 1 && s0.mem.asked.Keys == s0.mem.pages.Keys && GoodLines(s0.disk) && x != u
    requires Has(s0.disk, x, SubMeta(task, a)) && Has(s0.disk, u, p) && p.role.Probe? && Subpage(u, p)
    requires task in RestOf(u) && KeyOf(task) != KeyOf(u) && Sized(KeyOf(task)) && HasRow(idx, KeyOf(u))
    requires KeyOf(task) !in s0.disk.done && forall t :: t in OwedOn(s0.disk) ==> KeyOf(t) != KeyOf(task)
    requires LeavesSubpages(task, a) && a.edge.Some? && x in Subpages(task, true)
    requires Answered(m0, task, a) && Journaled(idx, s0.saved, KeyOf(task), a)
    ensures CanRaise(w, idx, max, s0)
  {
    hide GoodLines, Has, Leads, Subpage, RestOf, Subpages, LeavesSubpages, Journaled, Answered, Ready, Busy, Near;
    var s1 := SiftTwo(w, idx, max, s0, x, SubMeta(task, a), u, p);
    UnbookedStill(s0.disk, s1.mem.done, KeyOf(task));
    var s2 := BothTaken(w, idx, max, s0, s1, x, u);
    var s3 := ProbeReopens(w, idx, max, s0, s2, x, u, task);
    var s4 := RefusedNear(w, idx, max, s0, s3, x, task);
    JournaledMore(idx, s0.saved, s4.now, KeyOf(task), a);
    NearRaises(w, idx, max, s0, s4, x, task, a, m0);
  }

  /** The slice was opened by a probe, and another one, with a row in its slice, is left to open it again: some run
      raises. */
  lemma SiblingRaises(w: nat, idx: Index, max: nat, s: Sys, gone: set<Key>, step: Step, u: Task)
    requires w > 1 && SafeSys(idx, s, gone) && step.KillInSettle?
    requires s.mem.asked.Keys == s.mem.pages.Keys && Enabled(idx, max, s, step)
    requires LeavesSubpages(step.task, step.a) && OpenedBeside(idx, s.mem, step.task, u)
    ensures CanRaise(w, idx, max, Apply(idx, max, s, step))
  {
    hide SafeSys, Live;
    var KillInSettle(task, a, tail, plan) := step;
    var x := Subpages(task, a.edge.Some?)[0];
    PastTask(idx, s, gone, task);
    BesideInRest(idx, s, gone, task, u);
    CutOnly(task, a, u);
    KilledParts(idx, max, s, step);
    KilledFile(idx, max, s, gone, step);
    ProbeFiled(idx, max, s, gone, step, u);
    var s0 := Apply(idx, max, s, step);
    hide Apply, Settle, Split, Answered, GoodLines, Has, Subpage, RestOf, Subpages, LeavesSubpages, CanRaise;
    JournaledMore(idx, s.now, s0.saved, KeyOf(task), a);
    hide Journaled;
    ReopenRaises(w, idx, max, s0, x, u, s.mem.meta[u], task, a, s.mem);
  }

  lemma PastTask(idx: Index, s: Sys, gone: set<Key>, task: Task)
    requires SafeSys(idx, s, gone) && Asking(task) in s.crew
    ensures task in s.mem.inflight
  {
    PastHolds(idx, s, gone, Asking(task));
  }

  // ------------------------------------------------------------------ exactly which kills are harmful

  /** One worker, or an answer that queued no subpages, or a slice that can never be asked again. */
  ghost predicate Harmless(w: nat, idx: Index, m: Mem, task: Task, a: Answer)
    requires Sized(KeyOf(task))
  {
    w <= 1 || !LeavesSubpages(task, a) || NeverAskedAgain(idx, m, task)
  }

  /** From a clean lane no harmless run raises. */
  lemma NoneRaises(w: nat, idx: Index, max: nat, s: Sys, gone: set<Key>)
    requires w > 1 && SafeSys(idx, s, gone)
    ensures !CanRaise(w, idx, max, s)
  {
    forall s', step ensures !EndsIn(w, idx, max, s, s', step) {
      if EndsIn(w, idx, max, s, s', step) { NotRaised(w, idx, max, s, gone, s', step); }
    }
  }

  lemma NotRaised(w: nat, idx: Index, max: nat, s: Sys, gone: set<Key>, s': Sys, step: Step)
    requires w > 1 && SafeSys(idx, s, gone) && Leads(w, idx, max, s, s')
    ensures s'.mem.asked.Keys == s'.mem.pages.Keys && Enabled(idx, max, s', step) ==> !Raises(max, s', step)
  {
    hide SafeSys, SafeStep, Enabled, Apply, Raises, LosesTask, LosesProbeIn;
    var states, steps :| SafeRun(w, idx, max, states, steps) && states[0] == s && states[|steps|] == s';
    SafeRunIs(w, idx, max, states, steps);
    var last := RunSafe(idx, max, states, steps, |steps|, gone);
    SafeDone(idx, s', last);
    if s'.mem.asked.Keys == s'.mem.pages.Keys && Enabled(idx, max, s', step) {
      NoRaise(idx, max, s', step, last);
    }
  }

  /** Nor does any run of one worker. */
  lemma AloneNone(w: nat, idx: Index, max: nat, s: Sys)
    requires w <= 1 && Alone(s)
    ensures !CanRaise(w, idx, max, s)
  {
    forall s', step ensures !EndsIn(w, idx, max, s, s', step) {
      if EndsIn(w, idx, max, s, s', step) { AloneNot(w, idx, max, s, s', step); }
    }
  }

  lemma AloneNot(w: nat, idx: Index, max: nat, s: Sys, s': Sys, step: Step)
    requires w <= 1 && Alone(s) && Leads(w, idx, max, s, s')
    requires s'.mem.asked.Keys == s'.mem.pages.Keys && Enabled(idx, max, s', step)
    requires Within(w, step, Apply(idx, max, s', step))
    ensures !Raises(max, s', step)
  {
    hide Alone, Enabled, Apply, Raises;
    var states, steps :| SafeRun(w, idx, max, states, steps) && states[0] == s && states[|steps|] == s';
    SafeRunIs(w, idx, max, states, steps);
    FewWithin(w, states, steps);
    RunAlone(idx, max, states, steps, |steps|);
    AloneStep(idx, max, s', step);
  }

  lemma FewWithin(w: nat, states: seq<Sys>, steps: seq<Step>)
    requires w <= 1 && |states| == |steps| + 1 && WithinUntil(w, states, steps, |steps|)
    ensures WithinUntil(1, states, steps, |steps|)
  {
    forall i | 0 <= i < |steps| ensures Within(1, steps[i], states[i + 1]) {
      assert Within(w, steps[i], states[i + 1]);
    }
  }

  /** Of a clean lane of two or more workers: a kill between the two writes of a booking is harmless if and only if
      the answer queued no subpages, or the slice is a subpage and, if a probe opened it, no live probe of its page
      has a row in its slice. */
  lemma KillExact(w: nat, idx: Index, max: nat, s: Sys, gone: set<Key>, step: Step)
    requires w > 1 && SafeSys(idx, s, gone) && s.mem.asked.Keys == s.mem.pages.Keys
    requires step.KillInSettle? && Enabled(idx, max, s, step) && CleanPlan(step.plan) && Sized(KeyOf(step.task))
    ensures Harmless(w, idx, s.mem, step.task, step.a) <==> !CanRaise(w, idx, max, Apply(idx, max, s, step))
  {
    hide CanRaise, SafeSys, Enabled, Apply, CleanPlan, NeverAskedAgain, OpenedBeside, Journaled;
    if Harmless(w, idx, s.mem, step.task, step.a) {
      SafeNext(idx, max, s, step, gone);
      NoneRaises(w, idx, max, Apply(idx, max, s, step), GoneAfter(gone, step));
    } else if Root(KeyOf(step.task)) {
      PageRaises(w, idx, max, s, gone, step);
    } else {
      var u := BesideProbe(idx, s.mem, step.task);
      SiblingRaises(w, idx, max, s, gone, step, u);
    }
  }

  /** At every point of every run from a clean start, of at most w workers that take no page ahead of the owed
      subpages, and whose kills before were harmless: a kill between the two writes of a booking is harmless, in that
      no such run raises after it, if and only if there is one worker only, or the answer queued no subpages, or the
      slice is a subpage and, if a probe opened it, no live probe of its page has a row in its slice. */
  lemma WindowKillExact(w: nat, idx: Index, max: nat, states: seq<Sys>, steps: seq<Step>, step: Step)
    requires SortedIndex(idx) && SafeRun(w, idx, max, states, steps)
    requires Initial(states[0]) && CleanPlan(states[0].mem.pages)
    requires var s := states[|steps|]; s.mem.asked.Keys == s.mem.pages.Keys && Enabled(idx, max, s, step)
    requires step.KillInSettle? && CleanPlan(step.plan) && Sized(KeyOf(step.task))
    ensures var s := states[|steps|];
      Harmless(w, idx, s.mem, step.task, step.a) <==> !CanRaise(w, idx, max, Apply(idx, max, s, step))
  {
    hide SafeSys, Run, Enabled, Apply, CanRaise, SafeUntil, CleanPlan, Initial, NeverAskedAgain, LeavesSubpages, Alone;
    SafeRunIs(w, idx, max, states, steps);
    var s := states[|steps|];
    if w > 1 {
      StartsSafe(idx, states[0]);
      var gone := RunSafe(idx, max, states, steps, |steps|, {});
      KillExact(w, idx, max, s, gone, step);
    } else {
      InitialAlone(states[0]);
      FewWithin(w, states, steps);
      RunAlone(idx, max, states, steps, |steps|);
      KilledAlone(idx, max, s, step);
      AloneNone(w, idx, max, Apply(idx, max, s, step));
    }
  }

  lemma KilledAlone(idx: Index, max: nat, s: Sys, step: Step)
    requires Alone(s) && s.mem.asked.Keys == s.mem.pages.Keys && step.KillInSettle? && Enabled(idx, max, s, step)
    ensures Alone(Apply(idx, max, s, step))
  {
    WindowAlone(idx, max, s, step);
  }

  lemma StartsSafe(idx: Index, s: Sys)
    requires SortedIndex(idx) && Initial(s) && CleanPlan(s.mem.pages)
    ensures SafeSys(idx, s, {})
  {
    InitialSafe(idx, s);
    InitialInv(idx, s);
    InitialProbes(s);
    hide CleanPast, ToldSys, Inv, ProbesKept;
  }

  lemma BesideProbe(idx: Index, m: Mem, task: Task) returns (u: Task)
    requires !NeverAskedAgain(idx, m, task) && !Root(KeyOf(task))
    ensures OpenedBeside(idx, m, task, u)
  {
    u :| u in Live(m) && CanOpen(idx, m.meta, u) && m.meta[u].parent == m.meta[task].parent;
  }
}
