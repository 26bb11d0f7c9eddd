/** What the rebuild of the done set books, from the walker's side: the answers that book by themselves, and pages by
    the subpages the walker asked of them. */
module WalkRebuild {
  import opened Strings
  import opened CdxIndex
  import opened WalkState
  import opened WalkSystem
  import opened WalkCoverage
  import opened WalkRuns
  import opened WalkProbes
  import opened WalkClean
  import opened WalkCleanRuns
  import opened WalkGone
  import opened WalkSafe
  import opened WalkLog
  import J = WalkJobs
  import WalkSettle

  // ------------------------------------------------------------------ what books by itself

  /** Four rows of the key are silences, the last of them row i, and none of its rows between is anything else. */
  ghost predicate FourSilences(log: seq<J.Row>, k: Key, i: nat) {
    exists a, b, c :: 0 <= a < b < c < i < |log| && SilentAll(log, k, a, i) &&
      log[a].key == log[b].key == log[c].key == log[i].key == k
  }

  ghost predicate SilentAll(log: seq<J.Row>, k: Key, from: nat, to: nat) {
    forall j :: from <= j <= to && j < |log| && log[j].key == k ==> log[j].status == Http(504)
  }

  /** Row i is a whole answer of the key, a 400 to a subpage, or the fourth silence in a row of one. */
  ghost predicate BooksAlone(log: seq<J.Row>, k: Key, i: nat) {
    && i < |log| && log[i].key == k
    && (|| (log[i].status.Ok? && log[i].complete)
        || (k.size < 1000 && log[i].status == Http(400))
        || (k.size < 1000 && FourSilences(log, k, i)))
  }

  /** At least n silences of the key in a row end its rows, the first of them row a. */
  ghost predicate Ending(log: seq<J.Row>, k: Key, n: nat, at: seq<nat>) {
    && |at| == n && n > 0 && (forall i, j :: 0 <= i < j < n ==> at[i] < at[j])
    && (forall i :: 0 <= i < n ==> at[i] < |log| && log[at[i]].key == k)
    && SilentAll(log, k, at[0], |log|)
  }

  lemma {:induction false} StreakHas(log: seq<J.Row>, k: Key, n: nat) returns (at: seq<nat>)
    requires 0 < n <= J.Streak(log, k)
    ensures Ending(log, k, n, at)
    decreases |log|
  {
    var last := |log| - 1;
    var r, front := log[last], log[..last];
    if r.key == k && n == 1 {
      at := [last];
    } else if r.key == k {
      var before := StreakHas(front, k, n - 1);
      at := before + [last];
    } else {
      at := StreakHas(front, k, n);
    }
  }

  lemma {:induction false} StreakAtLeast(log: seq<J.Row>, k: Key, n: nat, at: seq<nat>)
    requires Ending(log, k, n, at)
    ensures J.Streak(log, k) >= n
    decreases |log|
  {
    var last := |log| - 1;
    var r, front := log[last], log[..last];
    if r.key != k {
      assert at[n - 1] != last;
      assert Ending(front, k, n, at);
      StreakAtLeast(front, k, n, at);
    } else if n > 1 {
      var before := at[..n - 1];
      assert before[n - 2] < at[n - 1];
      assert Ending(front, k, n - 1, before);
      StreakAtLeast(front, k, n - 1, before);
    }
  }

  lemma FourHave(log: seq<J.Row>, k: Key, i: nat)
    requires i < |log| && log[i].key == k && J.Streak(log[..i + 1], k) >= 4
    ensures FourSilences(log, k, i)
  {
    hide J.Streak;
    var now := log[..i + 1];
    var at := StreakHas(now, k, 4);
    assert at[0] < at[1] < at[2] < at[3] <= i;
    assert now[at[0]] == log[at[0]] && now[at[1]] == log[at[1]] && now[at[2]] == log[at[2]];
    forall j | at[0] <= j <= i && log[j].key == k ensures log[j].status == Http(504) { assert now[j] == log[j]; }
    assert SilentAll(log, k, at[0], i);
  }

  lemma FourAre(log: seq<J.Row>, k: Key, i: nat)
    requires i < |log| && FourSilences(log, k, i)
    ensures J.Streak(log[..i + 1], k) >= 4
  {
    var a, b, c :| 0 <= a < b < c < i < |log| && SilentAll(log, k, a, i) &&
      log[a].key == log[b].key == log[c].key == log[i].key == k;
    hide J.Streak, FourSilences;
    FourEnd(log[..i + 1], k, a, b, c);
    StreakAtLeast(log[..i + 1], k, 4, [a, b, c, i]);
  }

  lemma FourEnd(now: seq<J.Row>, k: Key, a: nat, b: nat, c: nat)
    requires a < b < c < |now| - 1 && SilentAll(now, k, a, |now|)
    requires now[a].key == now[b].key == now[c].key == now[|now| - 1].key == k
    ensures Ending(now, k, 4, [a, b, c, |now| - 1])
  {
  }

  lemma FourExactly(log: seq<J.Row>, k: Key, i: nat)
    requires i < |log| && log[i].key == k
    ensures J.Streak(log[..i + 1], k) >= 4 <==> FourSilences(log, k, i)
  {
    hide J.Streak, FourSilences;
    if J.Streak(log[..i + 1], k) >= 4 { FourHave(log, k, i); }
    if FourSilences(log, k, i) { FourAre(log, k, i); }
  }

  lemma {:induction false} DirectUpTo(log: seq<J.Row>, n: nat, k: Key)
    requires n <= |log|
    ensures k in J.Direct(log[..n]) <==> exists i: nat :: i < n && BooksAlone(log, k, i)
  {
    hide J.Terminal, J.Streak, FourSilences;
    if n > 0 {
      var now := log[..n];
      assert now[..n - 1] == log[..n - 1] && now[n - 1] == log[n - 1];
      DirectUpTo(log, n - 1, k);
      TerminalExactly(log, n - 1);
    }
  }

  lemma TerminalExactly(log: seq<J.Row>, i: nat)
    requires i < |log|
    ensures log[..i + 1] != [] && (J.Terminal(log[..i + 1]) <==> BooksAlone(log, log[i].key, i))
  {
    FourExactly(log, log[i].key, i);
    hide J.Streak, FourSilences;
  }

  /** The keys that the first reading of the log books. */
  lemma DirectExactly(log: seq<J.Row>, k: Key)
    ensures k in J.Direct(log) <==> exists i: nat :: BooksAlone(log, k, i)
  {
    DirectUpTo(log, |log|, k);
    assert log[..|log|] == log;
  }

  /** Row i leaves its page owing subpages: a cut answer with rows, or a silence of a page of a unit. */
  ghost predicate LeavesOwing(log: seq<J.Row>, k: Key, i: nat) {
    && i < |log| && log[i].key == k && !BooksAlone(log, k, i)
    && ((log[i].status.Ok? && log[i].rows > 0) || (log[i].status == Http(504) && k.size >= 1000))
  }

  ghost predicate LastOwing(log: seq<J.Row>, n: nat, k: Key, i: nat) {
    i < n <= |log| && LeavesOwing(log, k, i) && forall j: nat :: i < j < n ==> !LeavesOwing(log, k, j)
  }

  lemma LeavesKey(log: seq<J.Row>, k: Key, i: nat)
    ensures LeavesOwing(log, k, i) ==> i < |log| && log[i].key == k
  {
  }

  lemma OwesExactly(log: seq<J.Row>, i: nat)
    requires i < |log|
    ensures log[..i + 1] != [] && (J.Owes(log[..i + 1]) <==> LeavesOwing(log, log[i].key, i))
  {
    TerminalExactly(log, i);
    hide J.Terminal, BooksAlone;
    assert log[..i + 1][i] == log[i];
  }

  lemma {:induction false} OwingUpTo(log: seq<J.Row>, n: nat, k: Key)
    requires n <= |log|
    ensures k in J.Owing(log[..n]) <==> exists i: nat :: i < n && LeavesOwing(log, k, i)
    ensures forall i: nat :: LastOwing(log, n, k, i) ==> k in J.Owing(log[..n]) && J.Owing(log[..n])[k] == log[i].status
  {
    hide J.Owes, LeavesOwing;
    if n > 0 {
      var now := log[..n];
      assert now[..n - 1] == log[..n - 1] && now[n - 1] == log[n - 1];
      OwingUpTo(log, n - 1, k);
      OwesExactly(log, n - 1);
      LeavesKey(log, k, n - 1);
      forall i: nat | LastOwing(log, n, k, i) && i < n - 1 ensures LastOwing(log, n - 1, k, i) {}
    }
  }

  /** The pages left owing by the first reading, each with the status of the last row that left it so. */
  lemma OwingExactly(log: seq<J.Row>, k: Key)
    ensures k in J.Owing(log) <==> exists i: nat :: LeavesOwing(log, k, i)
    ensures forall i: nat :: LastOwing(log, |log|, k, i) ==> k in J.Owing(log) && J.Owing(log)[k] == log[i].status
  {
    OwingUpTo(log, |log|, k);
    assert log[..|log|] == log;
  }

  // ------------------------------------------------------------------ log and history

  /** What the log has of the pages whose subpages were queued: a sampled page owes by its silence, an opened or cut
      one by its rows or a probe's; rows were shown; and a page that owes is not asked again. */
  ghost predicate Noted(log: seq<J.Row>, h: History, done: set<Key>) {
    && (forall k :: k in h.sampled ==> Sized(k) && k.size == PAGE && k.page.Number? && OwesBy(log, k, Http(504)))
    && (forall k :: k in h.unfolded ==> k.page.Number? && k in J.Owing(log) && OpenedBy(log, k))
    && (forall k :: J.RowsOf(log, k) > 0 ==> k in h.shown)
    && (forall k :: k in J.Owing(log) ==> OwerNoted(h, done, k))
    && (forall r :: r in log ==> Sized(r.key))
  }

  predicate OwesBy(log: seq<J.Row>, k: Key, status: Status) {
    k in J.Owing(log) && J.Owing(log)[k] == status
  }

  predicate OpenedBy(log: seq<J.Row>, k: Key)
    requires k in J.Owing(log) && k.page.Number?
  {
    J.Owing(log)[k].Ok? || J.RowsOf(log, Sub(k, 0)) > 0 || J.RowsOf(log, Sub(k, 5)) > 0
  }

  predicate OwerNoted(h: History, done: set<Key>, k: Key) {
    Sized(k) && (k.size < 10 || (k in done && k in h.sampled + h.unfolded))
  }

  /** The rows of a step, when no kill leaves one behind alone. */
  function RowsOfStep(step: Step): seq<J.Row> {
    if step.Settles? || step.KillInSettle? then [RowOf(step.task, step.a)] else []
  }

  function FullLog(steps: seq<Step>): seq<J.Row> {
    if steps == [] then [] else FullLog(steps[..|steps| - 1]) + RowsOfStep(steps[|steps| - 1])
  }

  /** The tables of the log with one more row. */
  lemma LogMore(log: seq<J.Row>, r: J.Row)
    ensures var log' := log + [r];
      && (forall k :: J.RowsOf(log', k) == J.RowsOf(log, k) + if r.key == k && r.status.Ok? then r.rows else 0)
      && J.Owing(log') == if J.Owes(log') then J.Owing(log)[r.key := r.status] else J.Owing(log)
  {
    var log' := log + [r];
    assert log'[..|log|] == log && log'[|log|] == r;
    hide J.Owes, J.Terminal;
  }

  /** When the row of an answer leaves its slice owing. */
  lemma OwesWhen(log: seq<J.Row>, task: Task, a: Answer)
    ensures J.Owes(log + [RowOf(task, a)]) <==>
      (a.status.Ok? && !a.complete && a.rows > 0) || (a.status == Http(504) && task.size >= PAGE)
  {
    var log' := log + [RowOf(task, a)];
    assert log'[|log|] == RowOf(task, a);
  }

  /** An honest answer shows a first row exactly when it counts rows, and only a 200 does. */
  predicate Truthful(a: Answer) {
    (a.edge.None? <==> a.rows == 0) && (!a.status.Ok? ==> !a.complete && a.rows == 0)
  }

  lemma JournaledTruthful(idx: Index, h: History, k: Key, a: Answer)
    requires Journaled(idx, h, k, a)
    ensures Truthful(a)
  {
  }

  /** The task is a probe of a sampled page if it is one at all. */
  ghost predicate ProbeBelow(m: Mem, h: History, task: Task) {
    task in m.meta && m.meta[task].role.Probe? ==>
      && Subpage(task, m.meta[task]) && m.meta[task].parent in h.sampled && task.page.n % 10 in PROBES
  }

  /** One booked answer. */
  lemma BookedNoted(log: seq<J.Row>, m: Mem, h: History, done: set<Key>, task: Task, a: Answer, e: Effect,
                    done': set<Key>)
    requires Noted(log, h, done) && Sized(KeyOf(task)) && Truthful(a) && ProbeBelow(m, h, task)
    requires Answered(m, task, a) && e.outcome.Booked? && KeyOf(task) !in done && done <= done'
    requires !Whole(a) && Subpages(task, a.edge.Some?) != [] ==> KeyOf(task) in done'
    ensures Noted(log + [RowOf(task, a)], Note(h, m, task, a, e), done')
  {
    var k, log', h' := KeyOf(task), log + [RowOf(task, a)], Note(h, m, task, a, e);
    LogMore(log, RowOf(task, a));
    OwesWhen(log, task, a);
    if Opens(m, task, a) { OpensProbe(m, h, task, a); }
    NotYetOwing(log, h, done, k);
    hide J.Owing, J.RowsOf, J.Owes;
    forall q | q in h'.sampled
      ensures Sized(q) && q.size == PAGE && q.page.Number? && OwesBy(log', q, Http(504))
    {
      assert q in h.sampled ==> OwesBy(log, q, Http(504));
    }
    forall q | q in h'.unfolded ensures q.page.Number? && q in J.Owing(log') && OpenedBy(log', q) {
      assert q in h.unfolded ==> q in J.Owing(log) && OpenedBy(log, q);
      assert q in h.sampled ==> OwesBy(log, q, Http(504));
    }
    forall q | q in J.Owing(log') ensures OwerNoted(h', done', q) {
      assert q in J.Owing(log) ==> OwerNoted(h, done, q);
    }
  }

  lemma NotYetOwing(log: seq<J.Row>, h: History, done: set<Key>, k: Key)
    requires Noted(log, h, done) && k !in done
    ensures k in J.Owing(log) ==> k.size < 10
    ensures k !in h.sampled
  {
    hide J.Owing;
    SampledOwes(log, h, done, k);
    assert k in J.Owing(log) ==> OwerNoted(h, done, k);
  }

  lemma SampledOwes(log: seq<J.Row>, h: History, done: set<Key>, k: Key)
    requires Noted(log, h, done)
    ensures k in h.sampled ==> k in J.Owing(log) && k.size == PAGE
  {
    hide J.Owing;
    assert k in h.sampled ==> OwesBy(log, k, Http(504));
  }

  lemma OpensProbe(m: Mem, h: History, task: Task, a: Answer)
    requires ProbeBelow(m, h, task) && Opens(m, task, a)
    ensures var parent := m.meta[task].parent;
      parent in h.sampled && (KeyOf(task) == Sub(parent, 0) || KeyOf(task) == Sub(parent, 5))
  {
  }

  lemma FailedNoted(log: seq<J.Row>, m: Mem, h: History, done: set<Key>, task: Task, a: Answer, h': History,
                    done': set<Key>)
    requires Noted(log, h, done) && done <= done' && !Answered(m, task, a) && Truthful(a) && Sized(KeyOf(task))
    requires h'.sampled == h.sampled && h'.unfolded == h.unfolded && h'.shown == h.shown
    ensures Noted(log + [RowOf(task, a)], h', done')
  {
    LogMore(log, RowOf(task, a));
    OwesWhen(log, task, a);
    hide J.Owing, J.RowsOf, J.Owes;
    NotedLater(log, h, done, log + [RowOf(task, a)], h', done');
  }

  /** Nothing new is owed or shown. */
  lemma NotedLater(log: seq<J.Row>, h: History, done: set<Key>, log': seq<J.Row>, h': History, done': set<Key>)
    requires Noted(log, h, done) && done <= done'
    requires J.Owing(log') == J.Owing(log) && forall k :: J.RowsOf(log', k) == J.RowsOf(log, k)
    requires forall r :: r in log' ==> r in log || Sized(r.key)
    requires h'.sampled == h.sampled && h'.unfolded == h.unfolded && h'.shown == h.shown
    ensures Noted(log', h', done')
  {
    hide J.Owing, J.RowsOf, J.Owes;
    forall k | k in h'.sampled ensures OwesBy(log', k, Http(504)) { assert OwesBy(log, k, Http(504)); }
    forall k | k in h'.unfolded ensures k in J.Owing(log') && k.page.Number? && OpenedBy(log', k) {
      assert OpenedBy(log, k);
    }
    forall k | k in J.Owing(log') ensures OwerNoted(h', done', k) { assert OwerNoted(h, done, k); }
  }

  // ------------------------------------------------------------------ every step

  /** A lane of a safe run whose files are as of now, and its log. */
  ghost predicate Recorded(idx: Index, log: seq<J.Row>, s: Sys, gone: set<Key>) {
    SafeSys(idx, s, gone) && Noted(log, s.now, s.mem.done + gone) && s.saved == s.now
  }

  lemma SettleNoted(idx: Index, max: nat, s: Sys, gone: set<Key>, task: Task, a: Answer, log: seq<J.Row>,
                    done': set<Key>)
    requires SafeSys(idx, s, gone) && Noted(log, s.now, s.mem.done + gone)
    requires task in s.mem.inflight && Sized(KeyOf(task))
    requires s.mem.asked.Keys == s.mem.pages.Keys && Journaled(idx, s.now, KeyOf(task), a)
    requires s.mem.done + gone <= done' && Writes(Settle(s.mem, max, task, a).outcome)
    requires Settle(s.mem, max, task, a).outcome.Booked? && LeavesSubpages(task, a) ==> KeyOf(task) in done'
    ensures Noted(log + [RowOf(task, a)], Note(s.now, s.mem, task, a, Settle(s.mem, max, task, a)), done')
  {
    var m, e := s.mem, Settle(s.mem, max, task, a);
    SafeDone(idx, s, gone);
    JournaledTruthful(idx, s.now, KeyOf(task), a);
    FreshFromGone(idx, s, gone, task);
    HeldProbe(idx, s, gone, task);
    if Answered(m, task, a) {
      assert e.outcome.Booked?;
      hide CleanPast, SafeSys, Noted, Settle, Note, Answered;
      BookedNoted(log, m, s.now, m.done + gone, task, a, e, done');
    } else {
      UnansweredOutcome(max, m, s.now, task, a);
      UnfoldedStays(s.now, m, task, a, e);
      hide CleanPast, SafeSys, Noted, Settle, Note, Answered;
      FailedNoted(log, m, s.now, m.done + gone, task, a, Note(s.now, m, task, a, e), done');
    }
  }

  lemma UnfoldedStays(h: History, m: Mem, task: Task, a: Answer, e: Effect)
    requires Sized(KeyOf(task)) && !e.outcome.Booked?
    ensures Note(h, m, task, a, e).unfolded == h.unfolded
  {
  }

  lemma HeldProbe(idx: Index, s: Sys, gone: set<Key>, task: Task)
    requires CleanPast(idx, s, gone) && ToldSys(s) && task in s.mem.inflight
    ensures ProbeBelow(s.mem, s.now, task)
  {
    if task in s.mem.meta {
      TaskMeta(idx, s, gone, task);
      assert task in Live(s.mem);
      assert ProbeTold(task, s.mem.meta[task], s.now);
    }
  }

  lemma SettlesRecorded(idx: Index, max: nat, s: Sys, step: Step, gone: set<Key>, log: seq<J.Row>)
    requires Recorded(idx, log, s, gone) && s.mem.asked.Keys == s.mem.pages.Keys
    requires step.Settles? && Enabled(idx, max, s, step)
    ensures var s' := Apply(idx, max, s, step);
      Noted(log + [RowOf(step.task, step.a)], s'.now, s'.mem.done + gone) && s'.saved == s'.now
  {
    var Settles(task, a, tail) := step;
    var e, s' := Settle(s.mem, max, task, a), Apply(idx, max, s, step);
    SafeDone(idx, s, gone);
    PastHolds(idx, s, gone, Asking(task));
    SettleApart(idx, max, s, gone, task, a);
    hide Settle, Note, Apply, CleanPast, Noted, SafeSys, LeavesSubpages;
    SettleShape(idx, max, s, step);
    SettleNotes(idx, max, s, step);
    SettleDone(max, s.mem, task, a);
    SettleNoted(idx, max, s, gone, task, a, log, s'.mem.done + gone);
  }

  /** What the kill in the window leaves in the files. */
  lemma WindowNotes(idx: Index, max: nat, s: Sys, step: Step)
    requires s.mem.asked.Keys == s.mem.pages.Keys && step.KillInSettle? && Enabled(idx, max, s, step)
    ensures Sized(KeyOf(step.task)) && Asking(step.task) in s.crew && Journaled(idx, s.now, KeyOf(step.task), step.a)
    ensures var s', e := Apply(idx, max, s, step), Settle(s.mem, max, step.task, step.a);
      && e.outcome.Booked? && s'.saved == s'.now == Note(s.now, s.mem, step.task, step.a, e)
      && s'.disk.done == s.disk.done && s'.mem.done == s.disk.done
  {
    hide Settle, Note, Pending, LoadPending, Tail, Journaled;
    RestartLoads(Save(Changed(s, step.task, step.a, Settle(s.mem, max, step.task, step.a)), step.tail).disk, step.plan);
    hide Restart;
  }

  lemma WindowRecorded(idx: Index, max: nat, s: Sys, step: Step, gone: set<Key>, log: seq<J.Row>)
    requires Recorded(idx, log, s, gone) && s.mem.asked.Keys == s.mem.pages.Keys
    requires step.KillInSettle? && Enabled(idx, max, s, step)
    ensures var s' := Apply(idx, max, s, step);
      && Noted(log + [RowOf(step.task, step.a)], s'.now, s'.mem.done + GoneAfter(gone, step)) && s'.saved == s'.now
  {
    hide Settle, Note, Apply, Enabled, CleanPast, Noted, SafeSys, LeavesSubpages, Journaled, ToldSys, GoneAfter, KeyOf;
    hide Sized;
    var s' := Apply(idx, max, s, step);
    SafeDone(idx, s, gone);
    WindowNotes(idx, max, s, step);
    PastHolds(idx, s, gone, Asking(step.task));
    GoneHas(gone, step);
    SettleNoted(idx, max, s, gone, step.task, step.a, log, s'.mem.done + GoneAfter(gone, step));
  }

  lemma GoneHas(gone: set<Key>, step: Step)
    ensures gone <= GoneAfter(gone, step) && (!step.KillInSettle? ==> GoneAfter(gone, step) == gone)
    ensures step.KillInSettle? && Sized(KeyOf(step.task)) && LeavesSubpages(step.task, step.a) ==>
      KeyOf(step.task) in GoneAfter(gone, step)
  {
  }

  /** A step that logs no row. */
  lemma QuietRecorded(idx: Index, max: nat, s: Sys, step: Step, gone: set<Key>, log: seq<J.Row>)
    requires Recorded(idx, log, s, gone) && s.mem.asked.Keys == s.mem.pages.Keys && Enabled(idx, max, s, step)
    requires !step.Settles? && !step.KillInSettle? && s.mem.done == s.disk.done
    ensures var s' := Apply(idx, max, s, step); Noted(log, s'.now, s'.mem.done + gone) && s'.saved == s'.now
  {
    var s' := Apply(idx, max, s, step);
    QuietNotes(idx, max, s, step);
    hide SafeSys, Apply, Enabled, Noted;
    NotedLater(log, s.now, s.mem.done + gone, log, s'.now, s'.mem.done + gone);
  }

  lemma QuietNotes(idx: Index, max: nat, s: Sys, step: Step)
    requires s.mem.asked.Keys == s.mem.pages.Keys && Enabled(idx, max, s, step) && s.saved == s.now
    requires !step.Settles? && !step.KillInSettle? && s.mem.done == s.disk.done
    ensures var s' := Apply(idx, max, s, step);
      && s'.mem.done == s.mem.done && s'.saved == s'.now
      && s'.now == s.now.(received := s'.now.received)
  {
    hide Settle, Note, Pending, Journaled, Take, Requeue, NotDone, Delivered, Tail;
    if step.Takes? { TakeDone(s.mem, step.early, step.units); }
    if step.AskFails? { RequeueDone(s.mem, step.task); }
    if step.Kill? { RestartLoads(s.disk, step.plan); }
    hide Restart;
  }

  lemma RequeueDone(m: Mem, task: Task)
    requires m.asked.Keys == m.pages.Keys
    ensures Requeue(m, task, true).mem.done == m.done
  {
  }

  lemma RecordedStep(idx: Index, max: nat, s: Sys, step: Step, gone: set<Key>, log: seq<J.Row>)
    requires Recorded(idx, log, s, gone) && s.mem.asked.Keys == s.mem.pages.Keys
    requires Enabled(idx, max, s, step) && SafeStep(idx, s, step)
    ensures Recorded(idx, log + RowsOfStep(step), Apply(idx, max, s, step), GoneAfter(gone, step))
  {
    hide SafeSys, CleanPast, ToldSys, Apply, Enabled, SafeStep, Noted, GoneAfter, Raises, LosesTask, LosesProbeIn;
    hide LeavesSubpages, Settle, RowOf;
    SafeDone(idx, s, gone);
    SafeNext(idx, max, s, step, gone);
    GoneHas(gone, step);
    assert log + [] == log;
    if step.Settles? {
      SettlesRecorded(idx, max, s, step, gone, log);
    } else if step.KillInSettle? {
      WindowRecorded(idx, max, s, step, gone, log);
    } else {
      QuietRecorded(idx, max, s, step, gone, log);
    }
  }

  // ------------------------------------------------------------------ whole runs

  lemma FullLogNext(steps: seq<Step>, n: nat)
    requires 0 < n <= |steps|
    ensures FullLog(steps[..n]) == FullLog(steps[..n - 1]) + RowsOfStep(steps[n - 1])
  {
    assert steps[..n][..n - 1] == steps[..n - 1];
  }

  lemma {:induction false} RunRecorded(idx: Index, max: nat, states: seq<Sys>, steps: seq<Step>, n: nat)
    returns (gone: set<Key>)
    requires Run(idx, max, states, steps) && n <= |steps| && Recorded(idx, [], states[0], {})
    requires SafeUntil(idx, states, steps, n)
    ensures Recorded(idx, FullLog(steps[..n]), states[n], gone)
  {
    hide Recorded, SafeStep;
    gone := {};
    if n > 0 {
      gone := RunRecorded(idx, max, states, steps, n - 1);
      RunAt(idx, max, states, steps, n - 1);
      assert SafeStep(idx, states[n - 1], steps[n - 1]);
      hide Run, SafeUntil, Apply, Enabled, GoneAfter, RowsOfStep, FullLog;
      FullLogNext(steps, n);
      RecordedStep(idx, max, states[n - 1], steps[n - 1], gone, FullLog(steps[..n - 1]));
      gone := GoneAfter(gone, steps[n - 1]);
    } else {
      assert steps[..0] == [];
    }
  }

  /** The subpages of the page that the walker must see booked: its two probes while it is sampled and not opened,
      and all ten once it is opened or cut. */
  ghost predicate BookedBelow(h: History, k: Key, booked: set<Key>) {
    && k.page.Number?
    && (|| (k in h.sampled && k !in h.unfolded && Sub(k, 0) in booked && Sub(k, 5) in booked)
        || (k in h.sampled + h.unfolded && forall j: nat :: j < 10 ==> Sub(k, j) in booked))
  }

  lemma ProbesSilent(owed: set<Task>, was: set<Key>, done: set<Key>, log: seq<J.Row>, h: History, k: Key)
    requires Probed(owed, was, h) && Noted(log, h, done) && k in h.sampled && k !in h.unfolded
    ensures k.page.Number? && J.RowsOf(log, Sub(k, 0)) == 0 && J.RowsOf(log, Sub(k, 5)) == 0
  {
  }

  lemma WantedIsBelow(owed: set<Task>, was: set<Key>, done: set<Key>, log: seq<J.Row>, h: History, booked: set<Key>,
                      k: Key)
    requires Probed(owed, was, h) && Noted(log, h, done) && forall b :: b in booked ==> Sized(b)
    ensures k in J.Owing(log) && k.page.Number? && J.Wanted(log, k) <= booked <==> BookedBelow(h, k, booked)
  {
    if k in h.sampled && k !in h.unfolded { ProbesSilent(owed, was, done, log, h, k); }
    assert k in J.Owing(log) ==> OwerNoted(h, done, k);
    assert k in h.sampled ==> OwesBy(log, k, Http(504));
    hide J.Owing, J.RowsOf, Probed;
    if k in J.Owing(log) && k.page.Number? { WantedAre(log, k, booked); }
    assert k in J.Owing(log) && k.page.Number? && k.size < 10 ==> !Sized(Sub(k, 0));
  }

  /** A page that owes wants its two probes if neither had rows and it was silent last, else all ten subpages. */
  lemma WantedAre(log: seq<J.Row>, k: Key, booked: set<Key>)
    requires k in J.Owing(log) && k.page.Number?
    ensures J.Wanted(log, k) <= booked <==>
      if !J.Owing(log)[k].Ok? && J.RowsOf(log, Sub(k, 0)) == 0 && J.RowsOf(log, Sub(k, 5)) == 0
      then Sub(k, 0) in booked && Sub(k, 5) in booked else forall j: nat :: j < 10 ==> Sub(k, j) in booked
    ensures J.Wanted(log, k) <= booked ==> Sub(k, 0) in booked
  {
    hide J.Owing, J.RowsOf;
    var probes := !J.Owing(log)[k].Ok? && J.RowsOf(log, Sub(k, 0)) == 0 && J.RowsOf(log, Sub(k, 5)) == 0;
    assert !probes ==> forall j: nat :: j < 10 ==> Sub(k, j) in J.Wanted(log, k);
  }

  /** No answer of the slice brought a row. */
  ghost predicate Rowless(log: seq<J.Row>, k: Key) {
    forall i :: 0 <= i < |log| && log[i].key == k && log[i].status.Ok? ==> log[i].rows == 0
  }

  lemma {:induction false} RowsNone(log: seq<J.Row>, k: Key)
    ensures J.RowsOf(log, k) == 0 <==> Rowless(log, k)
  {
    if log != [] {
      var n := |log| - 1;
      RowsNone(log[..n], k);
      assert forall i :: 0 <= i < n ==> log[..n][i] == log[i];
    }
  }

  /** Whether row i is the last that leaves the page owing, and the subpages it asks for are booked: its two probes
      after a silence if neither had a row, all ten else. */
  ghost predicate OwedBooked(log: seq<J.Row>, k: Key, booked: set<Key>, i: nat) {
    && LastOwing(log, |log|, k, i) && k.page.Number?
    && if !log[i].status.Ok? && Rowless(log, Sub(k, 0)) && Rowless(log, Sub(k, 5))
       then Sub(k, 0) in booked && Sub(k, 5) in booked
       else forall j: nat :: j < 10 ==> Sub(k, j) in booked
  }

  lemma {:induction false} OneLast(log: seq<J.Row>, n: nat, k: Key)
    requires n <= |log| && exists i: nat :: i < n && LeavesOwing(log, k, i)
    ensures exists i: nat :: LastOwing(log, n, k, i)
  {
    hide LeavesOwing;
    if LeavesOwing(log, k, n - 1) {
      assert LastOwing(log, n, k, n - 1);
    } else {
      OneLast(log, n - 1, k);
      var i: nat :| LastOwing(log, n - 1, k, i);
      assert LastOwing(log, n, k, i);
    }
  }

  /** Of any log, whoever wrote it: what the rebuild books, row by row. */
  lemma AnyLogExactly(log: seq<J.Row>, booked: set<Key>, k: Key)
    requires J.LeastFixedPoint(log, booked)
    ensures k in booked <==>
      (exists i: nat :: BooksAlone(log, k, i)) || exists i: nat :: OwedBooked(log, k, booked, i)
  {
    hide J.Direct, J.Owing, J.Wanted, J.RowsOf, BooksAlone, LeavesOwing, Rowless;
    assert J.Rule(log, booked) == booked;
    DirectExactly(log, k);
    OwingExactly(log, k);
    if k in J.Owing(log) && k.page.Number? {
      var i: nat :| LeavesOwing(log, k, i);
      LeavesKey(log, k, i);
      OneLast(log, |log|, k);
      WantedAre(log, k, booked);
      RowsNone(log, Sub(k, 0));
      RowsNone(log, Sub(k, 5));
      forall i: nat | LastOwing(log, |log|, k, i)
        ensures OwedBooked(log, k, booked, i) <==> J.Wanted(log, k) <= booked {}
    }
  }

  lemma BookedSized(log: seq<J.Row>, booked: set<Key>, h: History, done: set<Key>)
    requires J.LeastFixedPoint(log, booked) && Noted(log, h, done)
    ensures forall b :: b in booked ==> Sized(b)
  {
    hide J.Direct, J.Owing, J.Wanted, J.RowsOf;
    assert J.Rule(log, booked) == booked;
    forall b | b in booked ensures Sized(b) {
      DirectExactly(log, b);
      if b in J.Direct(log) {
        var i: nat :| BooksAlone(log, b, i);
        assert log[i] in log;
      } else {
        assert OwerNoted(h, done, b);
      }
    }
  }

  lemma InitialNoted(s: Sys)
    requires Initial(s)
    ensures Noted([], s.now, s.mem.done + {}) && s.saved == s.now
  {
    J.NoRows();
    hide J.Owing, J.RowsOf;
  }

  /** From a clean start, over any harmless kills that leave no row alone: the rebuild of the done set books exactly
      what an answer books by itself, the pages sampled and not opened whose two probes it has booked, and the pages
      sampled or cut of which it has booked all ten subpages. */
  lemma RebuildExactly(idx: Index, max: nat, states: seq<Sys>, steps: seq<Step>, booked: set<Key>, k: Key)
    requires SortedIndex(idx) && Run(idx, max, states, steps) && Initial(states[0]) && CleanPlan(states[0].mem.pages)
    requires SafeUntil(idx, states, steps, |steps|) && J.LeastFixedPoint(FullLog(steps), booked)
    ensures k in booked <==>
      (exists i: nat :: BooksAlone(FullLog(steps), k, i)) || BookedBelow(states[|steps|].now, k, booked)
  {
    var log, s := FullLog(steps), states[|steps|];
    var done := RunNoted(idx, max, states, steps);
    hide Run, SafeUntil, Initial, Probed, Noted, FullLog, J.Direct, J.Owing, J.Wanted, BooksAlone;
    BookedSized(log, booked, s.now, done);
    WantedIsBelow(OwedBy(s.mem), s.mem.done, done, log, s.now, booked, k);
    DirectExactly(log, k);
    assert J.Rule(log, booked) == booked;
  }

  lemma RunNoted(idx: Index, max: nat, states: seq<Sys>, steps: seq<Step>) returns (done: set<Key>)
    requires SortedIndex(idx) && Run(idx, max, states, steps) && Initial(states[0]) && CleanPlan(states[0].mem.pages)
    requires SafeUntil(idx, states, steps, |steps|)
    ensures var s := states[|steps|];
      Noted(FullLog(steps), s.now, done) && Probed(OwedBy(s.mem), s.mem.done, s.now)
  {
    InitialSafe(idx, states[0]);
    InitialInv(idx, states[0]);
    InitialProbes(states[0]);
    InitialNoted(states[0]);
    assert steps[..|steps|] == steps;
    hide Run, SafeUntil, Initial, SafeStep, CleanPast, ToldSys, Inv, Probed, Noted, FullLog;
    var gone := RunRecorded(idx, max, states, steps, |steps|);
    done := states[|steps|].mem.done + gone;
  }

  // ------------------------------------------------------------------ there is only one such set

  ghost predicate Rebuilt(log: seq<J.Row>, h: History, booked: set<Key>) {
    forall k :: k in booked <==> (exists i: nat :: BooksAlone(log, k, i)) || BookedBelow(h, k, booked)
  }

  /** The equivalence fixes the set: subpages are finer than their page. */
  lemma {:induction false} RebuiltOnce(log: seq<J.Row>, h: History, x: set<Key>, y: set<Key>, k: Key)
    requires Rebuilt(log, h, x) && Rebuilt(log, h, y) && forall q :: q in h.sampled + h.unfolded ==> Sized(q)
    requires k in x
    ensures k in y
    decreases k.size
  {
    hide BooksAlone;
    if !(exists i: nat :: BooksAlone(log, k, i)) {
      assert BookedBelow(h, k, x);
      forall j: nat | j < 10 && Sub(k, j) in x && k.size > 0 ensures Sub(k, j) in y {
        RebuiltOnce(log, h, x, y, Sub(k, j));
      }
      assert BookedBelow(h, k, y);
    }
  }
}
