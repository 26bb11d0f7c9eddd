/** What one answer comes to, by its status alone, and how often a slice fails before it is parked. */
module WalkFails {
  import opened Strings
  import opened CdxIndex
  import opened WalkState
  import opened WalkSystem

  // ------------------------------------------------------------------ one answer

  /** The answer books its slice after so many failures: all of it or some rows came, or it is silent for good. */
  predicate Fruitful(task: Task, a: Answer, tries: nat) {
    || (a.status.Ok? && (a.complete || a.rows > 0))
    || (a.status == Http(504) && (task.size >= 1000 || tries >= 3))
    || (a.status == Http(400) && task.size < 1000)
  }

  /** A connection that was never made or dropped. */
  predicate Dropped(status: Status) {
    || status == Net("ConnectTimeout") || status == Net("TimeoutError")
    || status == Net("ConnectionResetError") || status == Net("RemoteDisconnected")
  }

  predicate Throttle(status: Status) {
    status == Http(429) || status == Http(503)
  }

  /** The failure is the address's, not the slice's. */
  predicate AddressFails(status: Status) {
    Throttle(status) || Dropped(status) || status == Net("ConnectionRefusedError") || status == Net("OSError")
  }

  /** An answer books its slice, or fails it once more: the ninth failure parks it when it is not the address's, and
      every other puts it back. */
  lemma OutcomeExactly(max: nat, m: Mem, task: Task, a: Answer)
    requires m.asked.Keys == m.pages.Keys && Sized(KeyOf(task))
    ensures var e, tries := Settle(m, max, task, a), Fails(m, KeyOf(task));
      && (e.outcome.Booked? || e.outcome.PruneKeyError? <==> Fruitful(task, a, tries))
      && (e.outcome.Parked? <==> !Fruitful(task, a, tries) && tries >= 8 && !AddressFails(a.status))
      && (e.outcome.Requeued? ==> task in m.meta || UnitOf(task) in m.pages)
      && (e.outcome.UnitKeyError? ==> task !in m.meta && UnitOf(task) !in m.pages)
      && e.mem.fails == (if Fruitful(task, a, tries) then m.fails else m.fails[KeyOf(task) := tries + 1])
  {
    hide Pruned, PruneRaises, Split;
    if Answered(m, task, a) { BookFails(m, task, a); }
  }

  lemma BookFails(m: Mem, task: Task, a: Answer)
    requires Sized(KeyOf(task))
    ensures Book(m, task, a).mem.fails == m.fails
    ensures Book(m, task, a).outcome.Booked? || Book(m, task, a).outcome.PruneKeyError?
  {
    hide DropLower, WithMeta, Subpages, RestOf;
  }

  /** A failed task that is not parked goes to the head of the owed subpages, or to its unit: to the front after a
      silence or one of the first dropped connections, else to the back. It counts as not asked. */
  lemma PutBackExactly(max: nat, m: Mem, task: Task, a: Answer)
    requires m.asked.Keys == m.pages.Keys && Sized(KeyOf(task)) && Settle(m, max, task, a).outcome.Requeued?
    ensures var m', u := Settle(m, max, task, a).mem, UnitOf(task);
      && m'.inflight == m.inflight - {task} && m'.meta == m.meta && m'.probed == m.probed && m'.done == m.done
      && (task in m.meta ==> m'.subq == [task] + m.subq && m'.pages == m.pages && m'.asked == m.asked)
      && (task !in m.meta ==>
            && m'.subq == m.subq && u in m.pages && m'.asked == m.asked[u := m.asked[u] - 1]
            && m'.pages == m.pages[u :=
                 if a.status == Http(504) || (Dropped(a.status) && m.pace.transient < max) then [task] + m.pages[u]
                 else m.pages[u] + [task]])
  {
    hide Book;
    if Answered(m, task, a) { BookFails(m, task, a); }
  }

  /** Throttles are counted until an answer is booked, refusals and dropped connections until one has rows or is whole;
      a silence counts as neither, and a dropped connection past the limit as a refusal. */
  lemma PaceExactly(max: nat, m: Mem, task: Task, a: Answer)
    requires m.asked.Keys == m.pages.Keys && Sized(KeyOf(task))
    ensures var e, p := Settle(m, max, task, a), m.pace;
      if Fruitful(task, a, Fails(m, KeyOf(task))) then
        e.mem.pace == if a.status.Ok? then Pace(0, 0, 0) else Pace(0, p.refused, p.transient)
      else if e.outcome.Parked? || a.status == Http(504) then e.mem.pace == p
      else if Throttle(a.status) then e.mem.pace == Pace(p.throttled + 1, p.refused, p.transient)
      else if Dropped(a.status) && p.transient < max then
        e.mem.pace == Pace(p.throttled, p.refused, p.transient + 1)
      else e.mem.pace == Pace(p.throttled, p.refused + 1, 0)
  {
    hide Split, DropLower;
    if Answered(m, task, a) {
      BookFails(m, task, a);
      BookPace(m, task, a);
    }
  }

  lemma BookPace(m: Mem, task: Task, a: Answer)
    requires Sized(KeyOf(task))
    ensures Book(m, task, a).mem.pace == if a.status.Ok? then Pace(0, 0, 0) else m.pace.(throttled := 0)
  {
    hide DropLower, WithMeta, Subpages, RestOf;
  }

  // ------------------------------------------------------------------ one life

  /** How many of the first n steps are answers to the slice that fail. */
  ghost function Failures(states: seq<Sys>, steps: seq<Step>, n: nat, k: Key): nat
    requires n <= |steps| && |states| == |steps| + 1
  {
    if n == 0 then 0
    else
      var step := steps[n - 1];
      Failures(states, steps, n - 1, k) +
      if step.Settles? && KeyOf(step.task) == k && !Fruitful(step.task, step.a, Fails(states[n - 1].mem, k)) then 1
      else 0
  }

  lemma {:induction false} PopFails(m: Mem, units: seq<Unit>)
    requires m.asked.Keys == m.pages.Keys && forall u :: u in units ==> u in m.pages
    ensures Pop(m, units).0.fails == m.fails
  {
    if units != [] && m.pages[units[0]] == [] { PopFails(m, units[1..]); }
  }

  lemma {:induction false} TakeSubFails(m: Mem)
    ensures TakeSub(m).0.fails == m.fails
    decreases |m.subq|
  {
    if m.subq != [] && KeyOf(m.subq[0]) in m.done {
      TakeSubFails(m.(subq := m.subq[1..], meta := m.meta - {m.subq[0]}));
    }
  }

  lemma TakeFails(m: Mem, early: seq<Unit>, units: seq<Unit>)
    requires m.asked.Keys == m.pages.Keys && forall u :: u in early + units ==> u in m.pages
    ensures Take(m, early, units).0.fails == m.fails
  {
    assert forall u :: u in early || u in units ==> u in early + units;
    PopFails(m, early);
    TakeSubFails(m);
    PopFails(TakeSub(m).0, units);
  }

  lemma SettlesFails(idx: Index, max: nat, s: Sys, step: Step)
    requires s.mem.asked.Keys == s.mem.pages.Keys && Enabled(idx, max, s, step) && step.Settles?
    ensures Sized(KeyOf(step.task))
    ensures Apply(idx, max, s, step).mem.fails == Settle(s.mem, max, step.task, step.a).mem.fails
  {
    hide Settle, Note, Pending, Journaled;
  }

  lemma OthersFail(idx: Index, max: nat, s: Sys, step: Step)
    requires s.mem.asked.Keys == s.mem.pages.Keys && Enabled(idx, max, s, step)
    requires !step.Settles? && !step.Kill? && !step.KillInSettle?
    ensures Apply(idx, max, s, step).mem.fails == s.mem.fails
  {
    hide Settle, Note, Pending, Journaled, Take, Requeue, NotDone, Delivered;
    if step.Takes? { TakeFails(s.mem, step.early, step.units); }
    if step.AskFails? { RequeueFails(s.mem, step.task); }
  }

  lemma RequeueFails(m: Mem, task: Task)
    requires m.asked.Keys == m.pages.Keys
    ensures Requeue(m, task, true).mem.fails == m.fails
  {
  }

  lemma StepFails(idx: Index, max: nat, s: Sys, step: Step, k: Key)
    requires s.mem.asked.Keys == s.mem.pages.Keys && Enabled(idx, max, s, step) && !step.Kill? && !step.KillInSettle?
    ensures Fails(Apply(idx, max, s, step).mem, k) == Fails(s.mem, k) +
      if step.Settles? && KeyOf(step.task) == k && !Fruitful(step.task, step.a, Fails(s.mem, k)) then 1 else 0
  {
    hide Settle, Apply, Fruitful;
    if step.Settles? {
      SettlesFails(idx, max, s, step);
      OutcomeExactly(max, s.mem, step.task, step.a);
    } else {
      OthersFail(idx, max, s, step);
    }
  }

  /** Within one life the lane counts each slice's failed answers, and parks it at the ninth or a later one: the
      failures since the start, not in a row. */
  lemma {:induction false} FailuresCounted(idx: Index, max: nat, states: seq<Sys>, steps: seq<Step>, n: nat, k: Key)
    requires Run(idx, max, states, steps) && n <= |steps| && states[0].mem.fails == map[]
    requires forall i :: 0 <= i < n ==> !steps[i].Kill? && !steps[i].KillInSettle?
    ensures Fails(states[n].mem, k) == Failures(states, steps, n, k)
  {
    if n > 0 {
      hide Apply, Enabled, Fruitful;
      FailuresCounted(idx, max, states, steps, n - 1, k);
      StepFails(idx, max, states[n - 1], steps[n - 1], k);
    }
  }

  /** The steps that park a slice. */
  lemma ParkedExactly(idx: Index, max: nat, states: seq<Sys>, steps: seq<Step>, n: nat)
    requires Run(idx, max, states, steps) && n < |steps| && states[0].mem.fails == map[]
    requires forall i :: 0 <= i <= n ==> !steps[i].Kill? && !steps[i].KillInSettle?
    requires steps[n].Settles? && Sized(KeyOf(steps[n].task))
    ensures states[n].mem.asked.Keys == states[n].mem.pages.Keys
    ensures var Settles(task, a, _) := steps[n]; var failed := Failures(states, steps, n, KeyOf(task));
      Settle(states[n].mem, max, task, a).outcome.Parked? <==>
        !Fruitful(task, a, failed) && failed >= 8 && !AddressFails(a.status)
  {
    FailuresCounted(idx, max, states, steps, n, KeyOf(steps[n].task));
    OutcomeExactly(max, states[n].mem, steps[n].task, steps[n].a);
  }

  // ------------------------------------------------------------------ what counts as the fourth silence

  /** A subpage is booked as silent, its rows given up, when a 504 follows three failures of any kind. */
  lemma SilentExactly(idx: Index, max: nat, states: seq<Sys>, steps: seq<Step>, n: nat)
    requires Run(idx, max, states, steps) && n < |steps| && states[0].mem.fails == map[]
    requires forall i :: 0 <= i <= n ==> !steps[i].Kill? && !steps[i].KillInSettle?
    requires steps[n].Settles? && Sized(KeyOf(steps[n].task)) && steps[n].task.size < PAGE
    requires steps[n].a.status == Http(504) && steps[n].a.edge.None?
    ensures states[n].mem.asked.Keys == states[n].mem.pages.Keys
    ensures Settle(states[n].mem, max, steps[n].task, steps[n].a).outcome.Booked? <==>
            Failures(states, steps, n, KeyOf(steps[n].task)) >= 3
  {
    var Settles(task, a, _) := steps[n];
    FailuresCounted(idx, max, states, steps, n, KeyOf(task));
    OutcomeExactly(max, states[n].mem, task, a);
    NoRaise(max, states[n].mem, task, a);
  }

  lemma NoRaise(max: nat, m: Mem, task: Task, a: Answer)
    requires m.asked.Keys == m.pages.Keys && Sized(KeyOf(task)) && a.edge.None?
    ensures !Settle(m, max, task, a).outcome.PruneKeyError?
  {
    hide Split;
  }

  function Failed(status: Status): Answer {
    Answer(status, false, 0, None)
  }

  /** So the fourth silence need not be one: three throttles and a single 504 book a subpage as silent. */
  lemma ThrottlesCount(max: nat, m: Mem, task: Task)
    requires m.asked.Keys == m.pages.Keys && Sized(KeyOf(task)) && task.size < PAGE && task in m.meta
    requires Fails(m, KeyOf(task)) == 0
    ensures var m1 := Settle(m, max, task, Failed(Http(429))).mem;
      m1.asked.Keys == m1.pages.Keys &&
      var m2 := Settle(m1, max, task, Failed(Http(429))).mem;
      m2.asked.Keys == m2.pages.Keys &&
      var m3 := Settle(m2, max, task, Failed(Http(429))).mem;
      && m3.asked.Keys == m3.pages.Keys
      && Settle(m3, max, task, Failed(Http(504))).outcome.Booked?
  {
    Throttled(max, m, task);
    var m1 := Settle(m, max, task, Failed(Http(429))).mem;
    Throttled(max, m1, task);
    var m2 := Settle(m1, max, task, Failed(Http(429))).mem;
    Throttled(max, m2, task);
    var m3 := Settle(m2, max, task, Failed(Http(429))).mem;
    OutcomeExactly(max, m3, task, Failed(Http(504)));
    NoRaise(max, m3, task, Failed(Http(504)));
    hide Settle;
  }

  lemma Throttled(max: nat, m: Mem, task: Task)
    requires m.asked.Keys == m.pages.Keys && Sized(KeyOf(task)) && task in m.meta
    ensures var m' := Settle(m, max, task, Failed(Http(429))).mem;
      m'.asked.Keys == m'.pages.Keys && m'.meta == m.meta && Fails(m', KeyOf(task)) == Fails(m, KeyOf(task)) + 1
  {
    OutcomeExactly(max, m, task, Failed(Http(429)));
  }
}
