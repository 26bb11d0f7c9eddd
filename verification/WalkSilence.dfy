/** The log spans restarts and the walker counts silences from its own start: exactly when, after a restart, the
    done set rebuilt from the log can book a slice that the walker does not. */
module WalkSilence {
  import opened Strings
  import opened CdxIndex
  import opened WalkState
  import opened WalkSystem
  import opened WalkCoverage
  import opened WalkRuns
  import opened WalkClean
  import opened WalkCleanRuns
  import opened WalkGone
  import opened WalkSafe
  import opened WalkAlone
  import opened WalkAgain
  import opened WalkSift
  import opened WalkReopen
  import opened WalkLog
  import J = WalkJobs
  import WalkSettle

  // ------------------------------------------------------------------ what the rebuild can book

  /** Some key that the rebuild can book, by a terminal answer or as a page owing subpages, is not booked. */
  ghost predicate BooksMore(log: seq<J.Row>, done: set<Key>) {
    !(J.Direct(log) + J.Owing(log).Keys <= done)
  }

  /** A slice smaller than a page, not booked, whose requests end in one to three silences. */
  ghost predicate Tardy(log: seq<J.Row>, done: set<Key>, k: Key) {
    Sized(k) && k.size < PAGE && k !in done && 1 <= J.Streak(log, k) <= 3
  }

  /** A question; a slice owed; or an unopened sibling of a probe that is owed and has a row. */
  ghost predicate Askable(idx: Index, m: Mem, k: Key) {
    || k.page.Question?
    || (exists t :: t in m.subq && KeyOf(t) == k)
    || (Reopenable(idx, m, k) && Parent(k) !in m.probed)
  }

  ghost predicate Behind(idx: Index, log: seq<J.Row>, m: Mem) {
    BooksMore(log, m.done) || exists k :: Tardy(log, m.done, k) && Askable(idx, m, k)
  }

  // ------------------------------------------------------------------ log and walker agree

  /** Not owed, and the siblings of its page were opened already. */
  ghost predicate Asleep(m: Mem, k: Key) {
    k.page.Number? && !KeyOwed(m, k) && Parent(k) in m.probed
  }

  /** A slice smaller than a page that can come to be asked. */
  ghost predicate Tracked(m: Mem, gone: set<Key>, k: Key) {
    Sized(k) && k.size < PAGE && k !in m.done + gone && !Asleep(m, k)
  }

  /** What the log would book is booked, and such a slice has failed as often as it was silent. */
  ghost predicate Agrees(log: seq<J.Row>, m: Mem, gone: set<Key>) {
    && J.Direct(log) + J.Owing(log).Keys <= m.done
    && forall k :: Tracked(m, gone, k) ==> Fails(m, k) >= J.Streak(log, k)
  }

  lemma {:induction false} StreakDirect(log: seq<J.Row>, k: Key)
    requires J.Streak(log, k) >= 4 && k.size < PAGE
    ensures k in J.Direct(log)
  {
    var r, front := log[|log| - 1], log[..|log| - 1];
    if r.key != k || J.Streak(front, k) >= 4 {
      StreakDirect(front, k);
    }
  }

  /** A start at which the walker is not behind its log. */
  lemma StartAgrees(idx: Index, log: seq<J.Row>, s: Sys, gone: set<Key>)
    requires LogKnown(idx, log, s, gone) && !Behind(idx, log, s.mem)
    requires s.mem.fails == map[] && s.mem.inflight == {}
    ensures Agrees(log, s.mem, gone)
  {
    hide J.Direct, J.Owing, J.Streak, Reopenable, FileLive, RowsTold, OwedBy;
    forall k | Tracked(s.mem, gone, k) ensures J.Streak(log, k) == 0 {
      if J.Streak(log, k) > 0 { NotTardy(idx, log, s, gone, k); }
    }
  }

  lemma NotTardy(idx: Index, log: seq<J.Row>, s: Sys, gone: set<Key>, k: Key)
    requires LogKnown(idx, log, s, gone) && !Behind(idx, log, s.mem) && s.mem.inflight == {}
    requires Tracked(s.mem, gone, k)
    ensures J.Streak(log, k) == 0
  {
    if J.Streak(log, k) > 0 { TrackedTardy(idx, log, s, gone, k); }
  }

  lemma TrackedTardy(idx: Index, log: seq<J.Row>, s: Sys, gone: set<Key>, k: Key)
    requires LogKnown(idx, log, s, gone) && J.Direct(log) <= s.mem.done && s.mem.inflight == {}
    requires Tracked(s.mem, gone, k) && J.Streak(log, k) > 0
    ensures Tardy(log, s.mem.done, k) && Askable(idx, s.mem, k)
  {
    if J.Streak(log, k) >= 4 { StreakDirect(log, k); }
    hide J.Direct, J.Owing, J.Streak, FileLive, RowsTold;
    if KeyOwed(s.mem, k) {
      var t :| t in OwedBy(s.mem) && KeyOf(t) == k;
      assert t in s.mem.subq;
    }
  }

  /** A row that books its page or leaves it owing was an answer the walker booked. */
  lemma BookableAnswered(m: Mem, log: seq<J.Row>, task: Task, a: Answer)
    requires task.size < PAGE ==> Fails(m, KeyOf(task)) >= J.Streak(log, KeyOf(task))
    ensures var log' := log + [RowOf(task, a)];
      J.Terminal(log') || J.Owes(log') ==> Answered(m, task, a)
  {
    var key, log' := KeyOf(task), log + [RowOf(task, a)];
    assert log'[..|log' | - 1] == log;
  }

  lemma RowCounts(log: seq<J.Row>, task: Task, a: Answer)
    ensures var log' := log + [RowOf(task, a)];
      && (forall k :: k != KeyOf(task) ==> J.Streak(log', k) == J.Streak(log, k))
      && J.Streak(log', KeyOf(task)) <= J.Streak(log, KeyOf(task)) + 1
      && J.Direct(log') + J.Owing(log').Keys <= J.Direct(log) + J.Owing(log).Keys + {KeyOf(task)}
      && (KeyOf(task) !in J.Direct(log) + J.Owing(log).Keys && KeyOf(task) in J.Direct(log') + J.Owing(log').Keys ==>
            J.Terminal(log') || J.Owes(log'))
  {
    var log' := log + [RowOf(task, a)];
    assert log'[..|log' | - 1] == log;
    hide J.Terminal, J.Owes;
  }

  lemma UnansweredFails(max: nat, m: Mem, task: Task, a: Answer)
    requires m.asked.Keys == m.pages.Keys
    ensures var e := Unanswered(m, max, task, a);
      e.mem.fails == m.fails[KeyOf(task) := Fails(m, KeyOf(task)) + 1] && e.mem.done == m.done && !e.outcome.Booked?
  {
  }

  lemma BookFails(m: Mem, task: Task, a: Answer)
    requires Sized(KeyOf(task))
    ensures Book(m, task, a).mem.fails == m.fails && Book(m, task, a).mem.done == m.done
  {
  }

  /** One settled answer: the row books nothing that the walker does not, and counts no silence that it does not. */
  lemma SettleAgrees(max: nat, m: Mem, log: seq<J.Row>, task: Task, a: Answer)
    requires m.asked.Keys == m.pages.Keys && Sized(KeyOf(task)) && Writes(Settle(m, max, task, a).outcome)
    requires J.Direct(log) + J.Owing(log).Keys <= m.done && KeyOf(task) !in m.done
    requires task.size < PAGE ==> Fails(m, KeyOf(task)) >= J.Streak(log, KeyOf(task))
    ensures var e := Settle(m, max, task, a); var log' := log + [RowOf(task, a)];
      var done := m.done + if e.outcome.Booked? then {KeyOf(task)} else {};
      && J.Direct(log') + J.Owing(log').Keys <= done
      && (forall k :: k != KeyOf(task) ==> J.Streak(log', k) == J.Streak(log, k) && Fails(e.mem, k) == Fails(m, k))
      && (KeyOf(task) !in done && task.size < PAGE ==> Fails(e.mem, KeyOf(task)) >= J.Streak(log', KeyOf(task)))
  {
    BookableAnswered(m, log, task, a);
    RowCounts(log, task, a);
    BookFails(m, task, a);
    UnansweredFails(max, m, task, a);
    hide J.Direct, J.Owing, J.Streak, J.Terminal, J.Owes, Answered, Unanswered;
  }

  // ------------------------------------------------------------------ one step of a life

  /** What comes to be owed by an answer is no opened sibling of before. */
  lemma NewOwed(idx: Index, max: nat, s: Sys, gone: set<Key>, task: Task, a: Answer, k: Key)
    requires CleanPast(idx, s, gone) && task in s.mem.inflight && Sized(KeyOf(task))
    requires s.mem.asked.Keys == s.mem.pages.Keys && s.mem.probed <= s.mem.done + gone
    requires Writes(Settle(s.mem, max, task, a).outcome)
    requires KeyOwed(Settle(s.mem, max, task, a).mem, k) && !KeyOwed(s.mem, k)
    ensures k.page.Number? && Parent(k) !in s.mem.probed
  {
    var m, e := s.mem, Settle(s.mem, max, task, a);
    var t :| t in OwedBy(e.mem) && KeyOf(t) == k;
    FreshFromGone(idx, s, gone, task);
    OwedLive(idx, s, gone);
    assert task in Live(m);
    if Answered(m, task, a) {
      assert t in Live(Split(m, task, a));
      NewSplit(idx, s, gone, task, a, t);
    } else {
      UnansweredOwed(idx, max, s, gone, task, a);
    }
  }

  lemma UnansweredOwed(idx: Index, max: nat, s: Sys, gone: set<Key>, task: Task, a: Answer)
    requires CleanPast(idx, s, gone) && task in s.mem.inflight && s.mem.asked.Keys == s.mem.pages.Keys
    ensures var m' := Unanswered(s.mem, max, task, a).mem; OwedBy(m') <= OwedBy(s.mem) && m'.probed == s.mem.probed
  {
  }

  lemma NewSplit(idx: Index, s: Sys, gone: set<Key>, task: Task, a: Answer, t: Task)
    requires CleanPast(idx, s, gone) && task in s.mem.inflight && Sized(KeyOf(task)) && !PruneRaises(s.mem, task, a)
    requires t in OwedBy(Split(s.mem, task, a)) && t !in OwedBy(s.mem)
    requires KeyOf(task) !in s.mem.done + gone && s.mem.probed <= s.mem.done + gone
    ensures t.page.Number? && Parent(KeyOf(t)) !in s.mem.probed
  {
    var m, m' := s.mem, Split(s.mem, task, a);
    OwedLive(idx, s, gone);
    SettlePastSplit(m, gone, task, a);
    LivePast(m, gone);
    LivePast(m', gone);
    assert t in Live(m') && t in m'.meta;
    SplitLive(Past(m, gone), task, a, t);
    WalkSettle.SplitMetaIs(m, task, a, t);
    if !Whole(a) && t in Subpages(task, a.edge.Some?) {
      WalkSettle.SubpageOf(task, a.edge.Some?, t);
    } else if Opens(m, task, a) && t in RestOf(task) {
      TaskMeta(idx, s, gone, task);
      hide CleanPast, Split, Live, RestOf, Subpages, Subpage;
      RestIs(task, m.meta[task], t);
    }
  }

  /** A step that books nothing and brings nothing new to be owed. */
  lemma StayAgrees(log: seq<J.Row>, m: Mem, gone: set<Key>, m': Mem, gone': set<Key>)
    requires Agrees(log, m, gone) && m'.done == m.done && m'.fails == m.fails && m'.probed == m.probed && gone <= gone'
    requires forall k :: KeyOwed(m', k) ==> KeyOwed(m, k)
    ensures Agrees(log, m', gone')
  {
    hide J.Direct, J.Owing, J.Streak, KeyOwed;
    forall k | Tracked(m', gone', k) ensures Fails(m', k) >= J.Streak(log, k) {
      assert Tracked(m, gone, k);
    }
  }

  lemma SettlesAgree(idx: Index, max: nat, s: Sys, step: Step, gone: set<Key>, gone': set<Key>, log: seq<J.Row>)
    requires SafeSys(idx, s, gone) && LogKnown(idx, log, s, gone) && Agrees(log, s.mem, gone) && gone <= gone'
    requires s.mem.asked.Keys == s.mem.pages.Keys && step.Settles? && Enabled(idx, max, s, step)
    ensures Agrees(log + [RowOf(step.task, step.a)], Apply(idx, max, s, step).mem, gone')
  {
    hide CleanSys, Settle;
    var Settles(task, a, tail) := step;
    var m, e, s' := s.mem, Settle(s.mem, max, task, a), Apply(idx, max, s, step);
    SafeDone(idx, s, gone);
    PastHolds(idx, s, gone, Asking(task));
    SettleApart(idx, max, s, gone, task, a);
    SettleShape(idx, max, s, step);
    SettleDone(max, m, task, a);
    FreshFromGone(idx, s, gone, task);
    if task.size < PAGE { TaskTracked(idx, s, gone, task); }
    SettleAgrees(max, m, log, task, a);
    SettleProbes(max, m, task, a);
    DoneOwed(e.mem, s'.mem.done);
    hide SafeSys, CleanPast, Settle, Apply, FileLive, RowsTold, SilentKnown, J.Direct, J.Owing, J.Streak, OwedBy;
    forall k | Tracked(s'.mem, gone', k) ensures Fails(s'.mem, k) >= J.Streak(log + [RowOf(task, a)], k) {
      if k != KeyOf(task) { StillTracked(idx, max, s, gone, task, a, k, s'.mem, gone'); }
    }
  }

  lemma TaskTracked(idx: Index, s: Sys, gone: set<Key>, task: Task)
    requires CleanPast(idx, s, gone) && task in s.mem.inflight && Sized(KeyOf(task)) && task.size < PAGE
    ensures Tracked(s.mem, gone, KeyOf(task))
  {
    FreshFromGone(idx, s, gone, task);
    OwedLive(idx, s, gone);
    assert task in Live(s.mem);
    if task.page.Number? { assert task in OwedBy(s.mem); }
  }

  lemma StillTracked(idx: Index, max: nat, s: Sys, gone: set<Key>, task: Task, a: Answer, k: Key, m': Mem,
                     gone': set<Key>)
    requires CleanPast(idx, s, gone) && task in s.mem.inflight && Sized(KeyOf(task)) && gone <= gone'
    requires s.mem.asked.Keys == s.mem.pages.Keys && s.mem.probed <= s.mem.done + gone
    requires var e := Settle(s.mem, max, task, a);
      Writes(e.outcome) && OwedBy(m') == OwedBy(e.mem) && m'.probed == e.mem.probed && s.mem.probed <= e.mem.probed
    requires s.mem.done <= m'.done && Tracked(m', gone', k)
    ensures Tracked(s.mem, gone, k)
  {
    hide CleanPast, Settle, OwedBy;
    if Asleep(s.mem, k) && KeyOwed(Settle(s.mem, max, task, a).mem, k) { NewOwed(idx, max, s, gone, task, a, k); }
  }

  /** The steps of one life keep log and walker in agreement. */
  lemma LifeStep(idx: Index, max: nat, s: Sys, step: Step, gone: set<Key>, gone': set<Key>, log: seq<J.Row>,
                 rows: seq<J.Row>)
    requires SafeSys(idx, s, gone) && LogKnown(idx, log, s, gone) && Agrees(log, s.mem, gone) && gone <= gone'
    requires s.mem.asked.Keys == s.mem.pages.Keys && Enabled(idx, max, s, step) && Logs(idx, s, step, rows)
    requires !step.Kill? && !step.KillInSettle?
    ensures Agrees(log + rows, Apply(idx, max, s, step).mem, gone')
  {
    assert log + [] == log;
    match step
    case Takes(early, units) =>
      hide Agrees, LogKnown, Logs;
      TakeOwes(idx, s, gone, early, units);
      TakeKeepsFails(s.mem, early, units);
      StayAgrees(log, s.mem, gone, Take(s.mem, early, units).0, gone');
    case Asks(_, _, _) =>
      hide Agrees, LogKnown, Logs;
      StayAgrees(log, s.mem, gone, s.mem, gone');
    case Settles(_, _, _) => SettlesAgree(idx, max, s, step, gone, gone', log);
    case AskFails(task, _, _) =>
      SafeDone(idx, s, gone);
      AskFailsShape(idx, max, s, step, gone);
      RequeueOwed(s.mem, task);
      hide Agrees, LogKnown, Logs, CleanPast, Apply, Requeue, SafeSys, OwedBy;
      StayAgrees(log, s.mem, gone, Requeue(s.mem, task, true).mem, gone');
    case Adds(u, tasks) =>
      hide Agrees, LogKnown, Logs;
      assert OwedBy(AddPages(s.mem, u, tasks)) == OwedBy(s.mem);
      StayAgrees(log, s.mem, gone, AddPages(s.mem, u, tasks), gone');
  }

  lemma TakeKeepsFails(m: Mem, early: seq<Unit>, units: seq<Unit>)
    requires m.asked.Keys == m.pages.Keys && forall u :: u in early + units ==> u in m.pages
    ensures Take(m, early, units).0.fails == m.fails && Take(m, early, units).0.probed == m.probed
  {
    assert forall u :: u in early || u in units ==> u in early + units;
    PopFails(m, early);
    TakeSubFails(m);
    PopFails(TakeSub(m).0, units);
  }

  lemma {:induction false} PopFails(m: Mem, units: seq<Unit>)
    requires m.asked.Keys == m.pages.Keys && forall u :: u in units ==> u in m.pages
    ensures Pop(m, units).0.fails == m.fails && Pop(m, units).0.probed == m.probed
  {
    if units != [] && m.pages[units[0]] == [] { PopFails(m, units[1..]); }
  }

  lemma {:induction false} TakeSubFails(m: Mem)
    ensures TakeSub(m).0.fails == m.fails && TakeSub(m).0.probed == m.probed
    decreases |m.subq|
  {
    if m.subq != [] && KeyOf(m.subq[0]) in m.done {
      TakeSubFails(m.(subq := m.subq[1..], meta := m.meta - {m.subq[0]}));
    }
  }

  // ------------------------------------------------------------------ one life

  /** The rows of the steps of one life. */
  function LifeRows(step: Step): seq<J.Row> {
    if step.Settles? then [RowOf(step.task, step.a)] else []
  }

  function LifeLog(steps: seq<Step>): seq<J.Row> {
    if steps == [] then [] else LifeLog(steps[..|steps| - 1]) + LifeRows(steps[|steps| - 1])
  }

  ghost predicate OneLife(steps: seq<Step>) {
    forall i :: 0 <= i < |steps| ==> !steps[i].Kill? && !steps[i].KillInSettle?
  }

  /** The steps of one life of at most w workers lead from the one state to the other. */
  ghost predicate Lives(w: nat, idx: Index, max: nat, s: Sys, s': Sys, steps: seq<Step>) {
    LeadsBy(w, idx, max, s, s', steps) && OneLife(steps)
  }

  lemma LifeLogNext(steps: seq<Step>, n: nat)
    requires 0 < n <= |steps|
    ensures LifeLog(steps[..n]) == LifeLog(steps[..n - 1]) + LifeRows(steps[n - 1])
  {
    assert steps[..n][..n - 1] == steps[..n - 1];
  }

  /** A lane of a run from a clean start, its log, and the walker not behind it. */
  ghost predicate InStep(idx: Index, log: seq<J.Row>, s: Sys, gone: set<Key>) {
    SafeSys(idx, s, gone) && LogKnown(idx, log, s, gone) && Agrees(log, s.mem, gone)
  }

  /** A life that starts with log and walker in agreement ends so. */
  lemma {:induction false} LifeAgrees(idx: Index, max: nat, states: seq<Sys>, steps: seq<Step>, n: nat, first: set<Key>,
                                      log: seq<J.Row>) returns (gone: set<Key>)
    requires Run(idx, max, states, steps) && n <= |steps| && SafeUntil(idx, states, steps, n) && OneLife(steps)
    requires InStep(idx, log, states[0], first)
    ensures InStep(idx, log + LifeLog(steps[..n]), states[n], gone)
  {
    hide InStep;
    if n == 0 {
      gone := first;
      assert steps[..0] == [] && log + [] == log;
    } else {
      var i := n - 1;
      LifeAt(idx, max, states, steps, i, n);
      SafeLess(idx, states, steps, i, n);
      hide SafeStep, Run, SafeUntil, Apply, Enabled, OneLife;
      var g := LifeAgrees(idx, max, states, steps, i, first, log);
      LifeLogNext(steps, n);
      hide LifeLog, LifeRows;
      assert log + LifeLog(steps[..i]) + LifeRows(steps[i]) == log + LifeLog(steps[..n]);
      gone := LifeOn(idx, max, states[i], steps[i], g, log + LifeLog(steps[..i]));
    }
  }

  lemma SafeLess(idx: Index, states: seq<Sys>, steps: seq<Step>, i: nat, n: nat)
    requires i <= n <= |steps| && |states| == |steps| + 1 && SafeUntil(idx, states, steps, n)
    ensures SafeUntil(idx, states, steps, i)
  {
    hide SafeStep;
  }

  lemma LifeAt(idx: Index, max: nat, states: seq<Sys>, steps: seq<Step>, i: nat, n: nat)
    requires Run(idx, max, states, steps) && i < n <= |steps| && SafeUntil(idx, states, steps, n) && OneLife(steps)
    ensures |states| == |steps| + 1 && states[i].mem.asked.Keys == states[i].mem.pages.Keys
    ensures Enabled(idx, max, states[i], steps[i]) && states[i + 1] == Apply(idx, max, states[i], steps[i])
    ensures SafeStep(idx, states[i], steps[i]) && !steps[i].Kill? && !steps[i].KillInSettle?
  {
    hide Enabled, Apply, SafeStep;
  }

  lemma LifeOn(idx: Index, max: nat, s: Sys, step: Step, gone: set<Key>, log: seq<J.Row>) returns (gone': set<Key>)
    requires InStep(idx, log, s, gone)
    requires s.mem.asked.Keys == s.mem.pages.Keys && Enabled(idx, max, s, step) && SafeStep(idx, s, step)
    requires !step.Kill? && !step.KillInSettle?
    ensures InStep(idx, log + LifeRows(step), Apply(idx, max, s, step), gone')
  {
    hide SafeSys, SafeStep, LogKnown, Agrees, Apply, Enabled;
    assert Logs(idx, s, step, LifeRows(step));
    gone' := KnownStep(idx, max, s, step, gone, log, LifeRows(step));
    LifeStep(idx, max, s, step, gone, gone', log, LifeRows(step));
  }

  /** From a start at which the walker is not behind its log, no life makes it so. */
  lemma LifeBooksNoMore(w: nat, idx: Index, max: nat, s: Sys, gone: set<Key>, log: seq<J.Row>, s': Sys,
                        steps: seq<Step>)
    requires SafeSys(idx, s, gone) && LogKnown(idx, log, s, gone) && !Behind(idx, log, s.mem)
    requires s.mem.fails == map[] && s.mem.inflight == {} && Lives(w, idx, max, s, s', steps)
    ensures !BooksMore(log + LifeLog(steps), s'.mem.done)
  {
    StartAgrees(idx, log, s, gone);
    var states :| SafeRun(w, idx, max, states, steps) && states[0] == s && states[|steps|] == s';
    LifeRuns(w, idx, max, states, steps);
    var n := |steps|;
    assert steps[..n] == steps;
    var _ := LifeAgrees(idx, max, states, steps, n, gone, log);
  }

  lemma LifeRuns(w: nat, idx: Index, max: nat, states: seq<Sys>, steps: seq<Step>)
    requires SafeRun(w, idx, max, states, steps) && OneLife(steps)
    ensures Run(idx, max, states, steps) && SafeUntil(idx, states, steps, |steps|)
  {
    SafeRunIs(w, idx, max, states, steps);
    hide Enabled, Apply, SafeStep;
    forall i | 0 <= i < |steps| ensures SafeStep(idx, states[i], steps[i]) {
      assert Goes(w, idx, max, states[i], steps[i], states[i + 1]);
    }
  }
}
