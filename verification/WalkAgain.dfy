/** Runs of at most w workers that take no page ahead of the owed subpages, and what they can lead to. */
module WalkAgain {
  import opened Strings
  import opened CdxIndex
  import opened WalkState
  import opened WalkSystem
  import opened WalkCleanRuns
  import opened WalkGone
  import opened WalkSafe
  import opened WalkAlone

  ghost predicate Follows(idx: Index, max: nat, s: Sys, step: Step, s': Sys) {
    && s.mem.asked.Keys == s.mem.pages.Keys && Enabled(idx, max, s, step)
    && s' == Apply(idx, max, s, step)
  }

  lemma RunMore(idx: Index, max: nat, states: seq<Sys>, steps: seq<Step>, step: Step, s': Sys)
    requires Run(idx, max, states, steps) && Follows(idx, max, states[|steps|], step, s')
    ensures Run(idx, max, states + [s'], steps + [step])
  {
    hide Enabled, Apply;
    var n, states', steps' := |steps|, states + [s'], steps + [step];
    forall i | 0 <= i < |steps'|
      ensures states'[i].mem.asked.Keys == states'[i].mem.pages.Keys
      ensures Enabled(idx, max, states'[i], steps'[i])
      ensures states'[i + 1] == Apply(idx, max, states'[i], steps'[i])
    {
      if i < n { assert states'[i] == states[i] && steps'[i] == steps[i] && states'[i + 1] == states[i + 1]; }
    }
  }

  /** The same of at most w workers and no early page. */
  lemma RunWithin(w: nat, idx: Index, max: nat, states: seq<Sys>, steps: seq<Step>, step: Step, s': Sys)
    requires Run(idx, max, states, steps) && WithinUntil(w, states, steps, |steps|)
    requires Follows(idx, max, states[|steps|], step, s') && Within(w, step, s')
    ensures Run(idx, max, states + [s'], steps + [step])
    ensures WithinUntil(w, states + [s'], steps + [step], |steps| + 1)
  {
    hide Follows, Within;
    RunMore(idx, max, states, steps, step, s');
    var states', steps' := states + [s'], steps + [step];
    forall i | 0 <= i < |steps'| ensures Within(w, steps'[i], states'[i + 1]) {
      if i < |steps| { assert steps'[i] == steps[i] && states'[i + 1] == states[i + 1]; }
    }
  }

  // ------------------------------------------------------------------ runs without a harmful kill

  /** A step without a harmful kill. One worker makes no kill harmful; more make one so that falls in the window of
      a slice that queued subpages and can be asked again. */
  ghost predicate SafeIn(w: nat, idx: Index, s: Sys, step: Step) {
    if w <= 1 && step.KillInSettle? then CleanPlan(step.plan) else SafeStep(idx, s, step)
  }

  /** One such step of at most w workers. */
  ghost predicate Goes(w: nat, idx: Index, max: nat, s: Sys, step: Step, s': Sys) {
    Follows(idx, max, s, step, s') && SafeIn(w, idx, s, step) && Within(w, step, s')
  }

  ghost predicate SafeRun(w: nat, idx: Index, max: nat, states: seq<Sys>, steps: seq<Step>) {
    && |states| == |steps| + 1
    && forall i :: 0 <= i < |steps| ==> Goes(w, idx, max, states[i], steps[i], states[i + 1])
  }

  /** These steps lead from the one state to the other. */
  ghost predicate LeadsBy(w: nat, idx: Index, max: nat, s: Sys, s': Sys, steps: seq<Step>) {
    exists states :: SafeRun(w, idx, max, states, steps) && states[0] == s && states[|steps|] == s'
  }

  ghost predicate Leads(w: nat, idx: Index, max: nat, s: Sys, s': Sys) {
    exists steps :: LeadsBy(w, idx, max, s, s', steps)
  }

  ghost predicate EndsIn(w: nat, idx: Index, max: nat, s: Sys, s': Sys, step: Step) {
    && Leads(w, idx, max, s, s')
    && s'.mem.asked.Keys == s'.mem.pages.Keys && Enabled(idx, max, s', step)
    && Goes(w, idx, max, s', step, Apply(idx, max, s', step)) && Raises(max, s', step)
  }

  /** Some run of at most w workers from here, with no harmful kill and no page taken ahead of the owed subpages, has a
      call that ends in an exception. */
  ghost predicate CanRaise(w: nat, idx: Index, max: nat, s: Sys) {
    exists s', step :: EndsIn(w, idx, max, s, s', step)
  }

  lemma LeadsHere(w: nat, idx: Index, max: nat, s: Sys)
    ensures LeadsBy(w, idx, max, s, s, []) && Leads(w, idx, max, s, s)
  {
    var states, steps := [s], [];
    assert SafeRun(w, idx, max, states, steps) && states[0] == s && states[|steps|] == s;
    assert LeadsBy(w, idx, max, s, s, steps);
  }

  lemma LeadsByOn(w: nat, idx: Index, max: nat, s: Sys, s': Sys, steps: seq<Step>, step: Step, next: Sys)
    requires LeadsBy(w, idx, max, s, s', steps) && Goes(w, idx, max, s', step, next)
    ensures LeadsBy(w, idx, max, s, next, steps + [step])
  {
    hide Goes;
    var states :| SafeRun(w, idx, max, states, steps) && states[0] == s && states[|steps|] == s';
    var all, done := states + [next], steps + [step];
    forall i | 0 <= i < |done| ensures Goes(w, idx, max, all[i], done[i], all[i + 1]) {
      if i < |steps| { assert all[i] == states[i] && done[i] == steps[i] && all[i + 1] == states[i + 1]; }
    }
    assert SafeRun(w, idx, max, all, done) && all[0] == s && all[|done|] == next;
  }

  lemma LeadsOn(w: nat, idx: Index, max: nat, s: Sys, s': Sys, step: Step, next: Sys)
    requires Leads(w, idx, max, s, s') && Goes(w, idx, max, s', step, next)
    ensures Leads(w, idx, max, s, next)
  {
    hide Goes, LeadsBy;
    var steps :| LeadsBy(w, idx, max, s, s', steps);
    LeadsByOn(w, idx, max, s, s', steps, step, next);
  }

  /** A safe run is a run. */
  lemma SafeRunIs(w: nat, idx: Index, max: nat, states: seq<Sys>, steps: seq<Step>)
    requires SafeRun(w, idx, max, states, steps)
    ensures Run(idx, max, states, steps) && WithinUntil(w, states, steps, |steps|)
    ensures w > 1 ==> SafeUntil(idx, states, steps, |steps|)
  {
    hide Enabled, Apply, SafeStep;
    forall i | 0 <= i < |steps|
      ensures states[i].mem.asked.Keys == states[i].mem.pages.Keys && Enabled(idx, max, states[i], steps[i])
      ensures states[i + 1] == Apply(idx, max, states[i], steps[i]) && Within(w, steps[i], states[i + 1])
      ensures w > 1 ==> SafeStep(idx, states[i], steps[i])
    {
      assert Goes(w, idx, max, states[i], steps[i], states[i + 1]);
    }
  }

  // ------------------------------------------------------------------ two copies of a subpage

  /** An answer that settles any subpage and names none. */
  const REFUSED := Answer(Http(400), false, 0, None)

  /** An honest answer that books a page and queues subpages books it in any state. */
  lemma BooksAgain(idx: Index, m: Mem, h: History, task: Task, a: Answer, m': Mem)
    requires Sized(KeyOf(task)) && LeavesSubpages(task, a) && Journaled(idx, h, KeyOf(task), a)
    requires Answered(m, task, a)
    ensures Answered(m', task, a)
  {
    var lo: nat :| Honest(idx, KeyOf(task), a, lo);
  }

  /** A refusal of the copy in flight: the queued copy has no meta any more, and listing it raises. */
  lemma CopyRaises(w: nat, idx: Index, max: nat, s0: Sys, s: Sys, x: Task)
    requires Leads(w, idx, max, s0, s) && s.mem.asked.Keys == s.mem.pages.Keys && Sized(KeyOf(x)) && x.size < PAGE
    requires Asking(x) in s.crew && x in s.mem.subq && |s.crew| <= w
    ensures CanRaise(w, idx, max, s0)
  {
    hide Leads;
    var step := Settles(x, REFUSED, []);
    CopyRefused(idx, max, s, x);
    hide Enabled, Apply, Raises;
    assert EndsIn(w, idx, max, s0, s, step);
  }

  lemma CopyRefused(idx: Index, max: nat, s: Sys, x: Task)
    requires s.mem.asked.Keys == s.mem.pages.Keys && Sized(KeyOf(x)) && x.size < PAGE
    requires Asking(x) in s.crew && x in s.mem.subq
    ensures Enabled(idx, max, s, Settles(x, REFUSED, [])) && Raises(max, s, Settles(x, REFUSED, []))
    ensures |Apply(idx, max, s, Settles(x, REFUSED, [])).crew| == |s.crew|
  {
    var e := Settle(s.mem, max, x, REFUSED);
    assert Honest(idx, KeyOf(x), REFUSED, 0) && Delivered(KeyOf(x), 0, 0) == {};
    assert e == Effect(Split(s.mem, x, REFUSED), Booked);
    assert x in e.mem.subq && x !in e.mem.meta;
    assert |s.crew - multiset{Asking(x)} + multiset{Raised(x)}| == |s.crew| - 1 + 1;
  }
}
