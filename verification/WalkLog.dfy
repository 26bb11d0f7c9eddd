/** The rows of a walker's log over its restarts: whose slices they are, and which of those can be asked again. */
module WalkLog {
  import opened Strings
  import opened CdxIndex
  import opened WalkState
  import opened WalkSystem
  import opened WalkCoverage
  import opened WalkRuns
  import opened WalkProbes
  import opened WalkClean
  import opened WalkCleanRuns
  import opened WalkGone
  import opened WalkSafe
  import opened WalkReopen
  import J = WalkJobs
  import WalkSettle

  function RowOf(task: Task, a: Answer): J.Row {
    J.Row(KeyOf(task), a.status, a.complete, a.rows)
  }

  // ------------------------------------------------------------------ what a step logs

  /** A worker was killed after the row of its answer and before any other write. */
  ghost predicate RowAlone(idx: Index, s: Sys, rows: seq<J.Row>) {
    exists task, a :: LastRow(idx, s, rows, task, a)
  }

  ghost predicate LastRow(idx: Index, s: Sys, rows: seq<J.Row>, task: Task, a: Answer) {
    && Asking(task) in s.crew && Sized(KeyOf(task)) && Journaled(idx, s.now, KeyOf(task), a)
    && rows == [RowOf(task, a)]
  }

  /** The request rows that a step appends to `log.tsv`: a settle writes its row before anything else, so a kill may
      follow it at once. */
  ghost predicate Logs(idx: Index, s: Sys, step: Step, rows: seq<J.Row>) {
    if step.Settles? || step.KillInSettle? then rows == [RowOf(step.task, step.a)]
    else rows == [] || (step.Kill? && RowAlone(idx, s, rows))
  }

  /** The log over the restarts. */
  function LogOf(rows: seq<seq<J.Row>>): seq<J.Row> {
    if rows == [] then [] else LogOf(rows[..|rows| - 1]) + rows[|rows| - 1]
  }

  ghost predicate Logged(idx: Index, states: seq<Sys>, steps: seq<Step>, rows: seq<seq<J.Row>>, n: nat)
    requires n <= |steps| && |states| == |steps| + 1 && |rows| == |steps|
  {
    forall i :: 0 <= i < n ==> Logs(idx, states[i], steps[i], rows[i])
  }

  lemma LogNext(rows: seq<seq<J.Row>>, n: nat)
    requires 0 < n <= |rows|
    ensures LogOf(rows[..n]) == LogOf(rows[..n - 1]) + rows[n - 1]
  {
    assert rows[..n][..n - 1] == rows[..n - 1];
  }

  // ------------------------------------------------------------------ whose slices the rows are

  ghost predicate KeyOwed(m: Mem, k: Key) {
    exists t :: t in OwedBy(m) && KeyOf(t) == k
  }

  /** A live probe of its page, with a row in its own slice, could queue the slice again. */
  ghost predicate Reopenable(idx: Index, m: Mem, k: Key) {
    k.page.Number? && k.page.n % 10 in REST &&
    exists u :: u in Live(m) && CanOpen(idx, m.meta, u) && m.meta[u].parent == Parent(k)
  }

  /** Every row is of a page or of a subpage of one that was booked. */
  ghost predicate RowsTold(log: seq<J.Row>, done: set<Key>) {
    forall r :: r in log ==> Sized(r.key) && (!Root(r.key) ==> Parent(r.key) in done)
  }

  /** A subpage that was last heard silent is booked or owed, or could be queued again. */
  ghost predicate SilentKnown(idx: Index, log: seq<J.Row>, m: Mem, done: set<Key>) {
    forall k :: J.Streak(log, k) > 0 && !Root(k) && k !in done ==> KeyOwed(m, k) || Reopenable(idx, m, k)
  }

  /** A line of the file is owed in memory, or is booked and no probe's. */
  ghost predicate LineLive(m: Mem, o: Owed) {
    if KeyOf(o.task) in m.done then !o.meta.role.Probe?
    else o.task in OwedBy(m) && o.task in m.meta && m.meta[o.task] == o.meta
  }

  ghost predicate FileLive(m: Mem, d: Disk) {
    && (forall t :: t in OwedBy(m) ==> t in OwedOn(d))
    && forall i :: 0 <= i < |d.pending| ==> LineLive(m, d.pending[i])
  }

  ghost predicate LogKnown(idx: Index, log: seq<J.Row>, s: Sys, gone: set<Key>) {
    && RowsTold(log, s.mem.done + gone) && SilentKnown(idx, log, s.mem, s.mem.done + gone)
    && FileLive(s.mem, s.disk) && s.mem.probed <= s.mem.done + gone
  }

  lemma {:induction false} StreakLogged(log: seq<J.Row>, k: Key)
    requires J.Streak(log, k) > 0
    ensures exists r :: r in log && r.key == k
  {
    var r, front := log[|log| - 1], log[..|log| - 1];
    assert log == front + [r];
    if r.key != k {
      StreakLogged(front, k);
      var q :| q in front && q.key == k;
      assert q in log;
    } else {
      assert r in log;
    }
  }

  /** On a clean lane the owed tasks are the live ones that are no pages of a unit. */
  lemma OwedLive(idx: Index, s: Sys, gone: set<Key>)
    requires CleanPast(idx, s, gone)
    ensures forall t :: t in OwedBy(s.mem) <==> t in Live(s.mem) && t in s.mem.meta
    ensures forall t :: t in Live(s.mem) && !Root(KeyOf(t)) ==>
      t in s.mem.meta && s.mem.meta[t].parent == Parent(KeyOf(t)) && Parent(KeyOf(t)) in s.mem.done + gone
  {
    var p := Past(s.mem, gone);
    LivePast(s.mem, gone);
    forall t | t in Live(s.mem) && t in s.mem.meta ensures t in OwedBy(s.mem) {
      ProbeOwed(p, t);
    }
    forall t | t in Live(s.mem) && !Root(KeyOf(t))
      ensures t in s.mem.meta && s.mem.meta[t].parent == Parent(KeyOf(t)) && Parent(KeyOf(t)) in s.mem.done + gone
    {
      LiveChild(p, t);
    }
  }

  // ------------------------------------------------------------------ the file and the lane

  lemma SavedLive(m: Mem, tail: seq<Task>, d: Disk, done: set<Key>)
    requires CanSave(m) && Tail(m, tail) && d.pending == Pending(m, tail)
    requires forall t :: t in OwedBy(m) && m.meta[t].role.Probe? ==> KeyOf(t) !in done
    ensures FileLive(m.(done := done), d)
  {
    SavedOwed(m, tail, d);
    assert OwedBy(m.(done := done)) == OwedBy(m);
    hide OwedBy, CanSave, Tail, Pending;
    forall i | 0 <= i < |d.pending| ensures LineLive(m.(done := done), d.pending[i]) {
      assert d.pending[i].task in OwedOn(d);
    }
  }

  lemma ToldOpen(m: Mem, meta: map<Task, Meta>, done: set<Key>, h: History)
    requires Told(Live(m), meta, done, h) && meta == m.meta
    ensures forall t :: t in OwedBy(m) && m.meta[t].role.Probe? ==> KeyOf(t) !in done
  {
    forall t | t in OwedBy(m) && m.meta[t].role.Probe? ensures KeyOf(t) !in done {
      assert t in Live(m) && IsProbe(m.meta, t);
    }
  }

  lemma TakesLive(idx: Index, s: Sys, gone: set<Key>, early: seq<Unit>, units: seq<Unit>)
    requires SafeSys(idx, s, gone) && FileLive(s.mem, s.disk) && forall u :: u in early + units ==> u in s.mem.pages
    requires s.mem.asked.Keys == s.mem.pages.Keys
    ensures FileLive(Take(s.mem, early, units).0, s.disk)
  {
    var m, m' := s.mem, Take(s.mem, early, units).0;
    TakeOwes(idx, s, gone, early, units);
    hide OwedBy, Take, SafeSys;
    forall i | 0 <= i < |s.disk.pending| ensures LineLive(m', s.disk.pending[i]) {
      assert LineLive(m, s.disk.pending[i]);
    }
  }

  lemma TakeKeepsOwed(idx: Index, m: Mem, h: History, early: seq<Unit>, units: seq<Unit>)
    requires GoodMem(idx, m, h) && forall u :: u in early + units ==> u in m.pages
    ensures forall t :: t in OwedBy(m) && KeyOf(t) !in m.done ==> t in OwedBy(Take(m, early, units).0)
  {
    hide GoodMem, OwedBy;
    assert forall u :: u in early || u in units ==> u in early + units;
    assert m.asked.Keys == m.pages.Keys by { GoodUnitKeys(idx, m, h); }
    PopKeeps(idx, m, h, early);
    TakeSubKeeps(idx, m, h);
    PopKeeps(idx, TakeSub(m).0, h, units);
  }

  lemma GoodUnitKeys(idx: Index, m: Mem, h: History)
    requires GoodMem(idx, m, h)
    ensures m.asked.Keys == m.pages.Keys
  {
  }

  lemma TakeCleanPast(idx: Index, s: Sys, gone: set<Key>, early: seq<Unit>, units: seq<Unit>)
    requires CleanPast(idx, s, gone) && forall u :: u in early + units ==> u in s.mem.pages
    requires s.mem.asked.Keys == s.mem.pages.Keys
    ensures var m' := Take(s.mem, early, units).0;
      m'.done == s.mem.done && Live(m') <= Live(s.mem) && SameMetas(s.mem, m')
  {
    var m, p := s.mem, Past(s.mem, gone);
    assert forall t :: t in m.subq ==> t in Live(m);
    TakePast(m, gone, early, units);
    CleanTake(p, early, units);
    TakeDone(m, early, units);
    LivePast(m, gone);
    LivePast(Take(m, early, units).0, gone);
    hide Take, Live, CleanSys, ApartMem, ApartDisk;
  }

  /** A take drops nothing from what is owed but booked tasks. */
  lemma TakeOwes(idx: Index, s: Sys, gone: set<Key>, early: seq<Unit>, units: seq<Unit>)
    requires SafeSys(idx, s, gone) && forall u :: u in early + units ==> u in s.mem.pages
    requires s.mem.asked.Keys == s.mem.pages.Keys
    ensures var m' := Take(s.mem, early, units).0;
      && m'.done == s.mem.done && SameMetas(s.mem, m') && Live(m') <= Live(s.mem)
      && (forall t :: t in OwedBy(s.mem) && KeyOf(t) !in s.mem.done ==> t in OwedBy(m'))
      && (forall t :: t in OwedBy(m') ==> t in OwedBy(s.mem) && m'.meta[t] == s.mem.meta[t])
  {
    assert CleanPast(idx, s, gone) && GoodMem(idx, s.mem, s.now);
    hide SafeSys, CleanPast, GoodMem, Take, Queued;
    TakeKeepsOwed(idx, s.mem, s.now, early, units);
    TakeCleanPast(idx, s, gone, early, units);
    OwedLive(idx, s, gone);
  }

  /** What a start loads is what the file lists and is not booked. */
  lemma RestartFileLive(d: Disk, plan: map<Unit, seq<Task>>)
    requires GoodLines(d)
    requires forall i :: 0 <= i < |d.pending| && d.pending[i].meta.role.Probe? ==> KeyOf(d.pending[i].task) !in d.done
    ensures FileLive(Restart(d, plan), d)
  {
    var m := Restart(d, plan);
    RestartLoads(d, plan);
    StartLoads(d, plan);
    hide Restart, OwedOn;
    forall i | 0 <= i < |d.pending| ensures LineLive(m, d.pending[i]) {
      if KeyOf(d.pending[i].task) !in d.done { LineLoaded(d, m, i); }
    }
  }

  lemma LineLoaded(d: Disk, m: Mem, i: nat)
    requires GoodLines(d) && i < |d.pending| && KeyOf(d.pending[i].task) !in d.done
    requires forall t :: t in m.meta ==>
      t in m.subq && exists j :: 0 <= j < |d.pending| && d.pending[j] == Owed(t, m.meta[t])
    requires forall t :: t in OwedOn(d) && KeyOf(t) !in d.done ==> t in OwedBy(m)
    ensures var o := d.pending[i]; o.task in OwedBy(m) && o.task in m.meta && m.meta[o.task] == o.meta
  {
    var o := d.pending[i];
    assert o.task in OwedOn(d);
    var j :| 0 <= j < |d.pending| && d.pending[j] == Owed(o.task, m.meta[o.task]);
    assert GoodPair(d, i, j);
  }

  /** The lines of a file of a clean lane. */
  lemma CleanLines(idx: Index, s: Sys, gone: set<Key>)
    requires CleanPast(idx, s, gone)
    ensures GoodLines(s.disk)
  {
    LinesGood(s.disk, PastDisk(s.disk, gone));
  }

  // ------------------------------------------------------------------ every step

  lemma SettlesLive(idx: Index, max: nat, s: Sys, step: Step, gone: set<Key>)
    requires SafeSys(idx, s, gone) && step.Settles? && Enabled(idx, max, s, step)
    requires s.mem.asked.Keys == s.mem.pages.Keys && ToldSys(Apply(idx, max, s, step))
    ensures FileLive(Apply(idx, max, s, step).mem, Apply(idx, max, s, step).disk)
  {
    var Settles(task, a, tail) := step;
    var e, s' := Settle(s.mem, max, task, a), Apply(idx, max, s, step);
    SafeDone(idx, s, gone);
    PastHolds(idx, s, gone, Asking(task));
    SettleApart(idx, max, s, gone, task, a);
    SettleShape(idx, max, s, step);
    ToldOpen(s'.mem, s'.mem.meta, s'.mem.done, s'.now);
    hide SafeSys, Settle, Apply, OwedBy;
    assert OwedBy(s'.mem) == OwedBy(e.mem) by { DoneOwed(e.mem, s'.mem.done); }
    SavedLive(e.mem, tail, s'.disk, s'.mem.done);
  }

  lemma DoneOwed(m: Mem, done: set<Key>)
    ensures OwedBy(m.(done := done)) == OwedBy(m)
  {
  }

  lemma AskFailsShape(idx: Index, max: nat, s: Sys, step: Step, gone: set<Key>)
    requires CleanPast(idx, s, gone) && step.AskFails? && Enabled(idx, max, s, step)
    requires s.mem.asked.Keys == s.mem.pages.Keys
    ensures var e := Requeue(s.mem, step.task, true); var s' := Apply(idx, max, s, step);
      && CanSave(e.mem) && Tail(e.mem, step.tail) && s'.mem == e.mem
      && s'.disk == Disk(Pending(e.mem, step.tail), s.disk.done) && step.task in s.mem.inflight
  {
    var AskFails(task, raised, tail) := step;
    PastHolds(idx, s, gone, if raised then Raised(task) else Asking(task));
    NoRaise(idx, max, s, step, gone);
    hide CleanPast, Requeue;
  }

  lemma RequeueOwed(m: Mem, task: Task)
    requires m.asked.Keys == m.pages.Keys && task in m.inflight
    ensures var m' := Requeue(m, task, true).mem;
      OwedBy(m') == OwedBy(m) && m'.meta == m.meta && m'.done == m.done && m'.fails == m.fails && m'.probed == m.probed
  {
  }

  lemma AskFailsLive(idx: Index, max: nat, s: Sys, step: Step, gone: set<Key>)
    requires SafeSys(idx, s, gone) && step.AskFails? && Enabled(idx, max, s, step)
    requires s.mem.asked.Keys == s.mem.pages.Keys
    ensures FileLive(Apply(idx, max, s, step).mem, Apply(idx, max, s, step).disk)
  {
    SafeDone(idx, s, gone);
    AskFailsShape(idx, max, s, step, gone);
    RequeueOwed(s.mem, step.task);
    ToldOpen(s.mem, s.mem.meta, s.mem.done, s.now);
    hide SafeSys, CleanPast, Apply, Requeue, OwedBy, Told;
    var m' := Requeue(s.mem, step.task, true).mem;
    SavedLive(m', step.tail, Apply(idx, max, s, step).disk, m'.done);
  }

  lemma KillsLive(idx: Index, s: Sys, gone: set<Key>, plan: map<Unit, seq<Task>>)
    requires SafeSys(idx, s, gone) && FileLive(s.mem, s.disk)
    ensures FileLive(Restart(s.disk, plan), s.disk)
  {
    SafeDone(idx, s, gone);
    CleanLines(idx, s, gone);
    ToldOpen(s.mem, s.mem.meta, s.mem.done, s.now);
    hide SafeSys, CleanPast, Told, OwedBy, GoodLines;
    forall i | 0 <= i < |s.disk.pending| && s.disk.pending[i].meta.role.Probe?
      ensures KeyOf(s.disk.pending[i].task) !in s.disk.done
    {
      assert LineLive(s.mem, s.disk.pending[i]);
    }
    RestartFileLive(s.disk, plan);
  }

  lemma WindowLive(idx: Index, max: nat, s: Sys, step: Step, gone: set<Key>)
    requires SafeSys(idx, s, gone) && step.KillInSettle? && Enabled(idx, max, s, step)
    requires s.mem.asked.Keys == s.mem.pages.Keys
    ensures FileLive(Apply(idx, max, s, step).mem, Apply(idx, max, s, step).disk)
  {
    var KillInSettle(task, a, tail, plan) := step;
    SafeDone(idx, s, gone);
    PastHolds(idx, s, gone, Asking(task));
    KilledParts(idx, max, s, step);
    WindowLines(idx, max, s, gone, task, a, tail);
    var d := WindowDisk(max, s, task, a, tail);
    WindowProbes(idx, max, s, step, gone);
    KilledMem(idx, max, s, step);
    hide SafeSys, CleanPast, Apply, Settle, GoodLines, Restart, WindowDisk;
    RestartFileLive(d, plan);
  }

  lemma KilledMem(idx: Index, max: nat, s: Sys, step: Step)
    requires s.mem.asked.Keys == s.mem.pages.Keys && step.KillInSettle? && Enabled(idx, max, s, step)
    ensures Apply(idx, max, s, step).mem == Restart(Apply(idx, max, s, step).disk, step.plan)
  {
    hide Settle, Note, Journaled, Restart;
  }

  /** The probes that the file lists after the kill are not booked. */
  lemma WindowProbes(idx: Index, max: nat, s: Sys, step: Step, gone: set<Key>)
    requires SafeSys(idx, s, gone) && step.KillInSettle? && Enabled(idx, max, s, step)
    requires s.mem.asked.Keys == s.mem.pages.Keys
    ensures var d := Apply(idx, max, s, step).disk;
      forall i :: 0 <= i < |d.pending| && d.pending[i].meta.role.Probe? ==> KeyOf(d.pending[i].task) !in d.done
  {
    var KillInSettle(task, a, tail, plan) := step;
    var m' := Split(s.mem, task, a);
    SafeDone(idx, s, gone);
    PastHolds(idx, s, gone, Asking(task));
    KilledParts(idx, max, s, step);
    var d := Apply(idx, max, s, step).disk;
    SavedOwed(m', tail, d);
    assert ProbesOpen(Live(s.mem), s.mem.meta, s.mem.done);
    hide SafeSys, CleanPast, Apply, Settle, Split, Pending, CanSave, Tail;
    forall i | 0 <= i < |d.pending| && d.pending[i].meta.role.Probe? ensures KeyOf(d.pending[i].task) !in d.done {
      var t := d.pending[i].task;
      assert t in OwedOn(d);
      assert t in Live(m') && IsProbe(m'.meta, t);
      SplitProbesOpen(idx, s, gone, task, a, t);
    }
  }

  lemma StepLive(idx: Index, max: nat, s: Sys, step: Step, gone: set<Key>)
    requires SafeSys(idx, s, gone) && FileLive(s.mem, s.disk) && s.mem.asked.Keys == s.mem.pages.Keys
    requires Enabled(idx, max, s, step) && ToldSys(Apply(idx, max, s, step))
    ensures FileLive(Apply(idx, max, s, step).mem, Apply(idx, max, s, step).disk)
  {
    match step
    case Takes(early, units) =>
      hide SafeSys, FileLive, ToldSys;
      TakesLive(idx, s, gone, early, units);
    case Asks(_, _, _) => hide SafeSys, FileLive, ToldSys;
    case Settles(_, _, _) => SettlesLive(idx, max, s, step, gone);
    case AskFails(_, _, _) => AskFailsLive(idx, max, s, step, gone);
    case Adds(u, tasks) =>
      hide SafeSys, ToldSys;
      assert OwedBy(AddPages(s.mem, u, tasks)) == OwedBy(s.mem);
      AddsLive(s.mem, s.disk, u, tasks);
    case Kill(plan) =>
      SafeDone(idx, s, gone);
      KillsLive(idx, s, gone, plan);
      hide SafeSys, FileLive, ToldSys, Restart;
    case KillInSettle(_, _, _, _) => WindowLive(idx, max, s, step, gone);
  }

  lemma AddsLive(m: Mem, d: Disk, u: Unit, tasks: seq<Task>)
    requires FileLive(m, d)
    ensures FileLive(AddPages(m, u, tasks), d)
  {
    var m' := AddPages(m, u, tasks);
    assert OwedBy(m') == OwedBy(m);
    forall i | 0 <= i < |d.pending| ensures LineLive(m', d.pending[i]) {
      assert LineLive(m, d.pending[i]);
    }
  }

  // ------------------------------------------------------------------ slices that cannot be asked again

  /** Subpages that the log names and that are neither booked nor owed nor to be opened again. */
  ghost function Forgotten(idx: Index, log: seq<J.Row>, m: Mem, done: set<Key>): set<Key> {
    set r | r in log && !Root(r.key) && r.key !in done && !KeyOwed(m, r.key) && !Reopenable(idx, m, r.key) :: r.key
  }

  /** They are gone: lane and files are as clean as if they were booked. */
  lemma ForgottenGone(idx: Index, s: Sys, gone: set<Key>, log: seq<J.Row>)
    requires SafeSys(idx, s, gone) && RowsTold(log, s.mem.done + gone) && FileLive(s.mem, s.disk)
    ensures SafeSys(idx, s, gone + Forgotten(idx, log, s.mem, s.mem.done + gone))
  {
    var lost := Forgotten(idx, log, s.mem, s.mem.done + gone);
    assert forall k :: k in lost ==> Sized(k) && !Root(k) && Parent(k) in s.mem.done + gone;
    SafeDone(idx, s, gone);
    LostApartMem(idx, s, gone, log);
    LostApartDisk(idx, s, gone, log);
    hide ApartMem, ApartDisk, Forgotten, FileLive, ToldSys, Inv, ProbesKept;
    LostClean(idx, s, gone, lost);
  }

  lemma ForgottenKey(idx: Index, log: seq<J.Row>, m: Mem, done: set<Key>, k: Key)
    requires k in Forgotten(idx, log, m, done)
    ensures !Root(k) && k !in done && !KeyOwed(m, k) && !Reopenable(idx, m, k)
  {
  }

  lemma LostApartMem(idx: Index, s: Sys, gone: set<Key>, log: seq<J.Row>)
    requires CleanPast(idx, s, gone)
    ensures ApartMem(idx, s.mem, gone + Forgotten(idx, log, s.mem, s.mem.done + gone))
  {
    var m, lost := s.mem, Forgotten(idx, log, s.mem, s.mem.done + gone);
    OwedLive(idx, s, gone);
    assert ApartMem(idx, m, gone);
    hide CleanPast, Forgotten, Live, CanOpen, OwedBy;
    forall t | t in Live(m) ensures KeyOf(t) !in gone + lost {
      assert !Root(KeyOf(t)) ==> t in OwedBy(m) && KeyOwed(m, KeyOf(t));
      if KeyOf(t) in lost { ForgottenKey(idx, log, m, m.done + gone, KeyOf(t)); }
    }
    forall t | t in Live(m) && CanOpen(idx, m.meta, t) ensures !Reopens(gone + lost, m.meta[t].parent) {
      NotOpened(idx, log, m, gone, t);
    }
  }

  lemma NotOpened(idx: Index, log: seq<J.Row>, m: Mem, gone: set<Key>, t: Task)
    requires t in Live(m) && CanOpen(idx, m.meta, t) && !Reopens(gone, m.meta[t].parent)
    ensures !Reopens(gone + Forgotten(idx, log, m, m.done + gone), m.meta[t].parent)
  {
    var lost := Forgotten(idx, log, m, m.done + gone);
    hide Forgotten, Live, HasRow;
    if k :| k in gone + lost && k.page.Number? && Parent(k) == m.meta[t].parent && k.page.n % 10 in REST {
      if k in lost { ForgottenKey(idx, log, m, m.done + gone, k); }
    }
  }

  lemma LostApartDisk(idx: Index, s: Sys, gone: set<Key>, log: seq<J.Row>)
    requires CleanPast(idx, s, gone) && FileLive(s.mem, s.disk)
    ensures ApartDisk(idx, s.disk, gone + Forgotten(idx, log, s.mem, s.mem.done + gone))
  {
    var m, lost := s.mem, Forgotten(idx, log, s.mem, s.mem.done + gone);
    OwedLive(idx, s, gone);
    assert ApartDisk(idx, s.disk, gone);
    hide CleanPast, Forgotten, Live, OwedBy, HasRow;
    forall i | 0 <= i < |s.disk.pending| ensures ApartLine(idx, s.disk.pending[i], gone + lost) {
      var o := s.disk.pending[i];
      assert ApartLine(idx, o, gone) && LineLive(m, o);
      assert KeyOf(o.task) !in m.done ==> KeyOwed(m, KeyOf(o.task));
      if KeyOf(o.task) in lost { ForgottenKey(idx, log, m, m.done + gone, KeyOf(o.task)); }
      if o.meta.role.Probe? && HasRow(idx, KeyOf(o.task)) { NotOpened(idx, log, m, gone, o.task); }
    }
  }

  lemma LostClean(idx: Index, s: Sys, gone: set<Key>, lost: set<Key>)
    requires CleanPast(idx, s, gone) && forall k :: k in lost ==> Sized(k) && !Root(k) && Parent(k) in s.mem.done + gone
    requires ApartMem(idx, s.mem, gone + lost) && ApartDisk(idx, s.disk, gone + lost)
    ensures CleanPast(idx, s, gone + lost)
  {
    var p, q := PastSys(s, gone), PastSys(s, gone + lost);
    assert q.mem == p.mem.(done := p.mem.done + lost) && q.disk == p.disk.(done := p.disk.done + lost);
    LivePast(s.mem, gone);
    LostMem(p.mem, lost);
    hide Clean, ApartDisk, Staffed;
    assert forall k :: k in lost ==> Parent(k) in p.mem.done;
  }

  lemma LostMem(m: Mem, lost: set<Key>)
    requires Clean(m) && forall t :: t in Live(m) ==> KeyOf(t) !in lost
    ensures Clean(m.(done := m.done + lost))
  {
    var n := m.(done := m.done + lost);
    assert Queued(n) == Queued(m);
    forall t | t in n.inflight ensures InFlight(n, t) { assert InFlight(m, t) && t in Live(m); }
    forall u, t | u in n.pages && t in n.pages[u] ensures InUnit(n, u, t) {
      assert InUnit(m, u, t) && t in Queued(m) && t in Live(m);
    }
  }

  // ------------------------------------------------------------------ what the log's rows are, over all lives

  lemma ProbedBooked(idx: Index, s: Sys, gone: set<Key>, step: Step, max: nat, s': Sys, gone': set<Key>)
    requires SafeSys(idx, s, gone) && s.mem.probed <= s.mem.done + gone && s.mem.asked.Keys == s.mem.pages.Keys
    requires Enabled(idx, max, s, step) && s' == Apply(idx, max, s, step) && SafeSys(idx, s', gone')
    requires s.mem.done + gone <= s'.mem.done + gone'
    ensures s'.mem.probed <= s'.mem.done + gone'
  {
    match step
    case Takes(early, units) =>
      assert CleanPast(idx, s, gone);
      hide SafeSys;
      TakeCleanPast(idx, s, gone, early, units);
    case Asks(_, _, _) => hide SafeSys;
    case Settles(task, a, _) => SettleProbedKeys(idx, max, s, gone, step);
    case AskFails(task, _, _) =>
      SafeDone(idx, s, gone);
      AskFailsShape(idx, max, s, step, gone);
      RequeueOwed(s.mem, task);
      hide SafeSys, CleanPast, Requeue, Apply;
    case Adds(_, _) => hide SafeSys;
    case Kill(plan) => RestartProbed(idx, s', gone', plan);
    case KillInSettle(_, _, _, plan) =>
      KilledMem(idx, max, s, step);
      RestartProbed(idx, s', gone', plan);
  }

  lemma RestartProbed(idx: Index, s: Sys, gone: set<Key>, plan: map<Unit, seq<Task>>)
    requires CleanPast(idx, s, gone) && s.mem == Restart(s.disk, plan)
    ensures s.mem.probed <= s.mem.done + gone
  {
    RestartLoads(s.disk, plan);
    LivePast(s.mem, gone);
    var p := Past(s.mem, gone);
    hide Restart;
    forall k | k in s.mem.probed ensures k in s.mem.done + gone {
      var t :| t in s.mem.meta && s.mem.meta[t].role.Rest? && s.mem.meta[t].parent == k;
      assert t in Live(p) && ParentsBooked(Live(p), p.meta, p.done);
    }
  }

  lemma SettleProbedKeys(idx: Index, max: nat, s: Sys, gone: set<Key>, step: Step)
    requires SafeSys(idx, s, gone) && s.mem.probed <= s.mem.done + gone && s.mem.asked.Keys == s.mem.pages.Keys
    requires step.Settles? && Enabled(idx, max, s, step)
    ensures Apply(idx, max, s, step).mem.probed <= s.mem.done + gone
  {
    var Settles(task, a, tail) := step;
    SafeDone(idx, s, gone);
    PastHolds(idx, s, gone, Asking(task));
    SettleApart(idx, max, s, gone, task, a);
    SettleShape(idx, max, s, step);
    SettleProbes(max, s.mem, task, a);
    OwedLive(idx, s, gone);
    assert task in Live(s.mem);
    hide SafeSys, CleanPast, Settle, Apply, OwedBy;
    if Opens(s.mem, task, a) { MetaParent(idx, s, gone, task); }
  }

  lemma MetaParent(idx: Index, s: Sys, gone: set<Key>, t: Task)
    requires CleanPast(idx, s, gone) && t in Live(s.mem) && t in s.mem.meta
    ensures s.mem.meta[t].parent in s.mem.done + gone
  {
    LivePast(s.mem, gone);
    var p := Past(s.mem, gone);
    assert ParentsBooked(Live(p), p.meta, p.done);
  }

  lemma SettleProbes(max: nat, m: Mem, task: Task, a: Answer)
    requires m.asked.Keys == m.pages.Keys && Sized(KeyOf(task))
    ensures var m' := Settle(m, max, task, a).mem;
      m'.probed == m.probed || (Opens(m, task, a) && m'.probed == m.probed + {m.meta[task].parent})
  {
    hide DropLower, WithMeta, Subpages, RestOf;
  }

  /** A row is of a slice that a worker held: a page, or a subpage of a booked one. */
  lemma RowTold(idx: Index, s: Sys, gone: set<Key>, task: Task)
    requires CleanPast(idx, s, gone) && Asking(task) in s.crew && !Root(KeyOf(task))
    ensures Parent(KeyOf(task)) in s.mem.done + gone && KeyOwed(s.mem, KeyOf(task)) && KeyOf(task) !in s.mem.done + gone
  {
    PastHolds(idx, s, gone, Asking(task));
    OwedLive(idx, s, gone);
    FreshFromGone(idx, s, gone, task);
    assert task in Live(s.mem);
    assert task in OwedBy(s.mem);
  }

  lemma RowsToldOn(idx: Index, s: Sys, gone: set<Key>, step: Step, log: seq<J.Row>, rows: seq<J.Row>, done: set<Key>)
    requires CleanPast(idx, s, gone) && RowsTold(log, s.mem.done + gone) && Logs(idx, s, step, rows)
    requires step.Settles? || step.KillInSettle? ==> Asking(step.task) in s.crew && Sized(KeyOf(step.task))
    requires s.mem.done + gone <= done
    ensures RowsTold(log + rows, done)
  {
    hide CleanPast;
    forall r | r in log + rows ensures Sized(r.key) && (!Root(r.key) ==> Parent(r.key) in done) {
      if r !in log {
        if step.Settles? || step.KillInSettle? {
          if !Root(r.key) { RowTold(idx, s, gone, step.task); }
        } else {
          var task, a :| LastRow(idx, s, rows, task, a);
          if !Root(r.key) { RowTold(idx, s, gone, task); }
        }
      }
    }
  }

  /** All lives: what the log names is kept track of. */
  lemma KnownStep(idx: Index, max: nat, s: Sys, step: Step, gone: set<Key>, log: seq<J.Row>, rows: seq<J.Row>)
    returns (gone': set<Key>)
    requires SafeSys(idx, s, gone) && LogKnown(idx, log, s, gone) && s.mem.asked.Keys == s.mem.pages.Keys
    requires Enabled(idx, max, s, step) && SafeStep(idx, s, step) && Logs(idx, s, step, rows)
    ensures SafeSys(idx, Apply(idx, max, s, step), gone') && LogKnown(idx, log + rows, Apply(idx, max, s, step), gone')
    ensures gone <= gone' && s.mem.done <= Apply(idx, max, s, step).mem.done
  {
    var s', g := Apply(idx, max, s, step), GoneAfter(gone, step);
    SafeNext(idx, max, s, step, gone);
    SafeDone(idx, s, gone);
    SafeDone(idx, s', g);
    DoneGrows(idx, max, s, step);
    StepHeld(idx, max, s, step);
    hide CleanPast, ToldSys, Enabled, Apply, SafeStep, Forgotten, FileLive, SilentKnown, RowsTold, Logs;
    StepLive(idx, max, s, step, gone);
    RowsToldOn(idx, s, gone, step, log, rows, s'.mem.done + g);
    ProbedBooked(idx, s, gone, step, max, s', g);
    ForgottenGone(idx, s', g, log + rows);
    var lost := Forgotten(idx, log + rows, s'.mem, s'.mem.done + g);
    gone' := g + lost;
    RowsToldMore(log + rows, s'.mem.done + g, s'.mem.done + gone');
    SilentOrLost(idx, log + rows, s'.mem, s'.mem.done + g, s'.mem.done + gone');
  }

  lemma StepHeld(idx: Index, max: nat, s: Sys, step: Step)
    requires s.mem.asked.Keys == s.mem.pages.Keys && Enabled(idx, max, s, step)
    ensures step.Settles? || step.KillInSettle? ==> Asking(step.task) in s.crew && Sized(KeyOf(step.task))
  {
    hide Journaled, Settle, CanSave, Tail, GoodPlan;
  }

  lemma DoneGrows(idx: Index, max: nat, s: Sys, step: Step)
    requires s.mem.asked.Keys == s.mem.pages.Keys && Enabled(idx, max, s, step)
    requires s.mem.done == s.disk.done && Apply(idx, max, s, step).mem.done == Apply(idx, max, s, step).disk.done
    ensures s.mem.done <= Apply(idx, max, s, step).mem.done
  {
    hide Settle, Take, Note, Journaled, Requeue, Restart, Pending;
  }

  lemma RowsToldMore(log: seq<J.Row>, done: set<Key>, done': set<Key>)
    requires RowsTold(log, done) && done <= done'
    ensures RowsTold(log, done')
  {
  }

  lemma SilentOrLost(idx: Index, log: seq<J.Row>, m: Mem, done: set<Key>, done': set<Key>)
    requires done <= done' && Forgotten(idx, log, m, done) <= done'
    ensures SilentKnown(idx, log, m, done')
  {
    forall k | J.Streak(log, k) > 0 && !Root(k) && k !in done' ensures KeyOwed(m, k) || Reopenable(idx, m, k) {
      StreakLogged(log, k);
      var r :| r in log && r.key == k;
      hide KeyOwed, Reopenable;
      assert r.key !in Forgotten(idx, log, m, done);
    }
  }

  lemma KnownAtFirst(idx: Index, s: Sys)
    requires Initial(s)
    ensures LogKnown(idx, [], s, {})
  {
  }
}
