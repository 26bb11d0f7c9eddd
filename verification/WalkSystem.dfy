/** The lane with its two files and an adversary: answers, kills between any two writes, restarts. */
module WalkSystem {
  import opened Strings
  import opened CdxIndex
  import opened WalkState

  datatype Owed = Owed(task: Task, meta: Meta)

  /** `pending.txt` and `done.txt`. */
  datatype Disk = Disk(pending: seq<Owed>, done: set<Key>)

  /** What the run so far has shown: rows journaled, slices given up, pages sampled by two probes, pages
      whose other eight subpages were queued, opened by a probe or with all ten, and slices answered with a
      row and with none. */
  datatype History = History(received: set<RowId>, skipped: set<Key>, parked: set<Key>,
                             sampled: set<Key>, unfolded: set<Key>, shown: set<Key>, hollow: set<Key>)

  /** A worker between its take and its settle, and one whose settle raised, before its handler runs. */
  datatype Worker = Asking(task: Task) | Raised(task: Task)

  /** `saved` is the history as of the last `pending.txt`, `crew` the workers that hold a task. */
  datatype Sys = Sys(mem: Mem, disk: Disk, now: History, saved: History, crew: multiset<Worker>)

  function Reset(pages: map<Unit, seq<Task>>, asked: map<Unit, int>): Mem {
    Mem([], map[], {}, {}, {}, map[], pages, asked, Pace(0, 0, 0))
  }

  // ------------------------------------------------------------------ pending.txt

  predicate CanSave(m: Mem) {
    forall t :: t in m.subq ==> t in m.meta
  }

  /** The in-flight subpages, each once, in the order the file lists them. */
  predicate Tail(m: Mem, tail: seq<Task>) {
    && Distinct(tail)
    && (forall t :: t in tail ==> t in m.inflight && t in m.meta)
    && (forall t :: t in m.inflight && t in m.meta ==> t in tail)
  }

  function Lines(ts: seq<Task>, meta: map<Task, Meta>): (r: seq<Owed>)
    requires forall t :: t in ts ==> t in meta
  {
    seq(|ts|, i requires 0 <= i < |ts| => Owed(ts[i], meta[ts[i]]))
  }

  function Pending(m: Mem, tail: seq<Task>): seq<Owed>
    requires CanSave(m) && Tail(m, tail)
  {
    Lines(m.subq + tail, m.meta)
  }

  // ------------------------------------------------------------------ restart

  function LoadPending(lines: seq<Owed>, done: set<Key>, m: Mem): (r: Mem)
    ensures r == m.(subq := r.subq, meta := r.meta)
  {
    if lines == [] then m
    else
      var Owed(task, meta) := lines[0];
      if KeyOf(task) !in done && task !in m.meta then
        LoadPending(lines[1..], done, m.(subq := m.subq + [task], meta := m.meta[task := meta]))
      else LoadPending(lines[1..], done, m)
  }

  function NotDone(tasks: seq<Task>, done: set<Key>): (r: seq<Task>)
    ensures forall t :: t in r <==> t in tasks && KeyOf(t) !in done
    ensures |r| <= |tasks|
  {
    if tasks == [] then []
    else
      assert tasks == [tasks[0]] + tasks[1..];
      (if KeyOf(tasks[0]) in done then [] else [tasks[0]]) + NotDone(tasks[1..], done)
  }

  /** A new process: the files, and each unit's tasks not answered yet. */
  function Restart(d: Disk, plan: map<Unit, seq<Task>>): Mem {
    var pages := map u | u in plan :: NotDone(plan[u], d.done);
    var asked := map u | u in plan :: |plan[u]| - |NotDone(plan[u], d.done)|;
    var m := LoadPending(d.pending, d.done, Reset(pages, asked));
    m.(done := d.done, probed := set t | t in m.meta && m.meta[t].role.Rest? :: m.meta[t].parent)
  }

  function AddPages(m: Mem, u: Unit, tasks: seq<Task>): Mem {
    var left := NotDone(tasks, m.done);
    m.(pages := m.pages[u := left], asked := m.asked[u := |tasks| - |left|])
  }

  // ------------------------------------------------------------------ history

  function Note(h: History, m: Mem, task: Task, a: Answer, e: Effect): History
    requires Sized(KeyOf(task))
  {
    if e.outcome.Parked? then h.(parked := h.parked + {KeyOf(task)})
    else if !e.outcome.Booked? then h
    else
      var subs := if Whole(a) then [] else Subpages(task, a.edge.Some?);
      h.(skipped := h.skipped + (if !Whole(a) && subs == [] then {KeyOf(task)} else {}),
         sampled := h.sampled + (if subs != [] && a.edge.None? then {KeyOf(task)} else {}),
         unfolded := h.unfolded + (if Opens(m, task, a) then {m.meta[task].parent} else {})
                                + (if subs != [] && a.edge.Some? then {KeyOf(task)} else {}),
         shown := h.shown + (if a.edge.Some? then {KeyOf(task)} else {}),
         hollow := h.hollow + (if a.edge.None? then {KeyOf(task)} else {}))
  }

  function Delivered(k: Key, lo: nat, n: nat): set<RowId> {
    set i | lo <= i < lo + n :: RowId(ViewOf(k), i)
  }

  // ------------------------------------------------------------------ steps

  /** One critical section of a worker, one journal write, or a kill.
      - `Asks`: the journals of one request are written.
      - `Settles`: the answer to a task that a worker holds, whether or not the task is still in flight;
        `tail` is the order in which `pending.txt` lists the tasks in flight.
      - `AskFails`: the handler of an exception, from the request or, when `raised`, from the settle.
      - `Kill`: the process dies with both files as they stand, and a new one starts.
      - `KillInSettle`: it dies after `settle` rewrote `pending.txt`, before it appends to `done.txt`. */
  datatype Step =
    | Takes(early: seq<Unit>, units: seq<Unit>)
    | Asks(task: Task, lo: nat, n: nat)
    | Settles(task: Task, a: Answer, tail: seq<Task>)
    | AskFails(task: Task, raised: bool, tail: seq<Task>)
    | Adds(u: Unit, tasks: seq<Task>)
    | Kill(plan: map<Unit, seq<Task>>)
    | KillInSettle(task: Task, a: Answer, tail: seq<Task>, plan: map<Unit, seq<Task>>)

  /** The answer reports the first rows of the slice, in order, and all of them when complete. */
  ghost predicate Honest(idx: Index, k: Key, a: Answer, lo: nat) {
    && (!a.status.Ok? ==> !a.complete && a.rows == 0)
    && (a.edge.None? <==> a.rows == 0)
    && (forall r: RowId :: InSlice(idx, k, r) ==> lo <= r.i)
    && (forall i :: lo <= i < lo + a.rows ==> InSlice(idx, k, RowId(ViewOf(k), i)))
    && (a.complete ==> forall r: RowId :: InSlice(idx, k, r) ==> r.i < lo + a.rows)
    && (a.edge.Some? ==>
          && InSlice(idx, k, RowId(ViewOf(k), lo))
          && InSlice(idx, k, RowId(ViewOf(k), lo + a.rows - 1))
          && a.edge.value.first == At(idx, RowId(ViewOf(k), lo)).urlkey
          && a.edge.value.last == At(idx, RowId(ViewOf(k), lo + a.rows - 1)).urlkey)
  }

  /** The answer is honest and its rows are in the journals. */
  ghost predicate Journaled(idx: Index, h: History, k: Key, a: Answer) {
    exists lo: nat :: Honest(idx, k, a, lo) && Delivered(k, lo, a.rows) <= h.received
  }

  ghost predicate GoodPlan(plan: map<Unit, seq<Task>>) {
    forall u, t :: u in plan && t in plan[u] ==> Sized(KeyOf(t)) && Root(KeyOf(t)) && UnitOf(t) == u
  }

  /** The state after a rewrite of `pending.txt`, or of nothing when listing it raises. */
  function Save(s: Sys, tail: seq<Task>): Sys
    requires CanSave(s.mem) ==> Tail(s.mem, tail)
  {
    if CanSave(s.mem) then
      s.(disk := s.disk.(pending := Pending(s.mem, tail)), saved := s.now)
    else s
  }

  /** The lane after the critical section's changes to memory, before it writes. */
  function Changed(s: Sys, task: Task, a: Answer, e: Effect): Sys
    requires Sized(KeyOf(task))
  {
    s.(mem := e.mem, now := Note(s.now, s.mem, task, a, e))
  }

  function Hired(task: Option<Task>): multiset<Worker> {
    if task.Some? then multiset{Asking(task.value)} else multiset{}
  }

  /** The worker is done with its task. */
  function Leave(s: Sys, w: Worker): Sys {
    s.(crew := s.crew - multiset{w})
  }

  predicate Writes(o: Outcome) {
    !o.PruneKeyError? && !o.UnitKeyError?
  }

  /** The answer taken in, written and booked, unless the call raised on the way. */
  ghost function AfterSettle(s: Sys, task: Task, a: Answer, e: Effect, tail: seq<Task>): Sys
    requires Sized(KeyOf(task)) && (CanSave(e.mem) ==> Tail(e.mem, tail))
  {
    var s1 := Leave(Changed(s, task, a, e), Asking(task));
    if !Writes(e.outcome) || !CanSave(e.mem) then s1.(crew := s1.crew + multiset{Raised(task)})
    else if e.outcome.Booked? then BookKey(Save(s1, tail), KeyOf(task))
    else Save(s1, tail)
  }

  function BookKey(s: Sys, k: Key): Sys {
    s.(mem := s.mem.(done := s.mem.done + {k}), disk := s.disk.(done := s.disk.done + {k}))
  }

  ghost predicate Enabled(idx: Index, max: nat, s: Sys, step: Step)
    requires s.mem.asked.Keys == s.mem.pages.Keys
  {
    match step
    case Takes(early, units) => forall u :: u in early + units ==> u in s.mem.pages
    case Asks(task, lo, n) =>
      forall i :: lo <= i < lo + n ==> InSlice(idx, KeyOf(task), RowId(ViewOf(KeyOf(task)), i))
    case Settles(task, a, tail) =>
      && Asking(task) in s.crew && Sized(KeyOf(task))
      && Journaled(idx, s.now, KeyOf(task), a)
      && var e := Settle(s.mem, max, task, a);
         CanSave(e.mem) ==> Tail(e.mem, tail)
    case AskFails(task, raised, tail) =>
      && (if raised then Raised(task) else Asking(task)) in s.crew
      && var e := Requeue(s.mem, task, true);
         CanSave(e.mem) ==> Tail(e.mem, tail)
    case Adds(u, tasks) => u !in s.mem.pages && GoodPlan(map[u := tasks])
    case Kill(plan) => GoodPlan(plan)
    case KillInSettle(task, a, tail, plan) =>
      && Asking(task) in s.crew && Sized(KeyOf(task)) && GoodPlan(plan)
      && Journaled(idx, s.now, KeyOf(task), a)
      && var e := Settle(s.mem, max, task, a);
         e.outcome.Booked? && CanSave(e.mem) && Tail(e.mem, tail)
  }

  ghost function Apply(idx: Index, max: nat, s: Sys, step: Step): Sys
    requires s.mem.asked.Keys == s.mem.pages.Keys
    requires Enabled(idx, max, s, step)
  {
    match step
    case Takes(early, units) =>
      var (m, task) := Take(s.mem, early, units);
      s.(mem := m, crew := s.crew + Hired(task))
    case Asks(task, lo, n) =>
      var rows := Delivered(KeyOf(task), lo, n);
      s.(now := s.now.(received := s.now.received + rows),
         saved := s.saved.(received := s.saved.received + rows))
    case Settles(task, a, tail) => AfterSettle(s, task, a, Settle(s.mem, max, task, a), tail)
    case AskFails(task, raised, tail) =>
      var s1 := Leave(s, if raised then Raised(task) else Asking(task));
      if task !in s.mem.inflight then s1
      else
        var e := Requeue(s.mem, task, true);
        var s2 := s1.(mem := e.mem);
        if !Writes(e.outcome) then s2 else Save(s2, tail)
    case Adds(u, tasks) => s.(mem := AddPages(s.mem, u, tasks))
    case Kill(plan) => s.(mem := Restart(s.disk, plan), now := s.saved, crew := multiset{})
    case KillInSettle(task, a, tail, plan) =>
      var s1 := Save(Changed(s, task, a, Settle(s.mem, max, task, a)), tail);
      s1.(mem := Restart(s1.disk, plan), now := s1.saved, crew := multiset{})
  }

  /** Every state of the run follows from the one before by an enabled step. */
  ghost predicate Run(idx: Index, max: nat, states: seq<Sys>, steps: seq<Step>) {
    && |states| == |steps| + 1
    && forall i :: 0 <= i < |steps| ==>
        && states[i].mem.asked.Keys == states[i].mem.pages.Keys
        && Enabled(idx, max, states[i], steps[i])
        && states[i + 1] == Apply(idx, max, states[i], steps[i])
  }

  ghost predicate Initial(s: Sys) {
    && s.mem == Reset(s.mem.pages, s.mem.asked)
    && s.mem.asked.Keys == s.mem.pages.Keys
    && GoodPlan(s.mem.pages)
    && s.disk == Disk([], {}) && s.now == s.saved == History({}, {}, {}, {}, {}, {}, {}) && s.crew == multiset{}
  }
}
