/** One lane of the extended walk as values: its queues, its files, and what each call does to them. */
module WalkState {
  import opened Strings
  import opened CdxIndex

  datatype Status = Ok | Http(code: nat) | Net(name: string)

  const THROTTLES: set<Status> := {Http(429), Http(503)}
  const FAST: set<Status> := {Net("ConnectTimeout"), Net("TimeoutError"), Net("ConnectionResetError"),
                              Net("RemoteDisconnected")}
  const ADDRESS: set<Status> := THROTTLES + FAST + {Net("ConnectionRefusedError"), Net("OSError")}

  /** The first and the last urlkey of the rows that arrived. */
  datatype Edge = Edge(first: string, last: string)

  datatype Answer = Answer(status: Status, complete: bool, rows: nat, edge: Option<Edge>)

  datatype Role = Cut | Probe | Rest

  /** Why a pending subpage is asked: its parent's key, and for a cut the cut row's urlkey. */
  datatype Meta = Meta(role: Role, parent: Key, stop: string)

  datatype Unit = Unit(sfx: string, kind: string)

  datatype Mem = Mem(
    subq: seq<Task>,
    meta: map<Task, Meta>,
    probed: set<Key>,
    inflight: set<Task>,
    done: set<Key>,
    fails: map<Key, nat>,
    pages: map<Unit, seq<Task>>,
    asked: map<Unit, int>,
    pace: Pace)

  /** Failures in a row: throttles, refusals and dropped connections. */
  datatype Pace = Pace(throttled: nat, refused: nat, transient: nat)

  function UnitOf(t: Task): Unit {
    Unit(t.sfx, t.kind)
  }

  function Fails(m: Mem, k: Key): nat {
    if k in m.fails then m.fails[k] else 0
  }

  /** How one call under the lock ended: two of them are a `KeyError`. */
  datatype Outcome = Booked | Requeued | Parked | PruneKeyError | UnitKeyError

  datatype Effect = Effect(mem: Mem, outcome: Outcome)

  // ------------------------------------------------------------------ take

  /** The head of the owed subpages not booked meanwhile; booked ones are dropped on the way. */
  function TakeSub(m: Mem): (r: (Mem, Option<Task>))
    ensures r.0.pages == m.pages && r.0.asked == m.asked
    decreases |m.subq|
  {
    if m.subq == [] then (m, None)
    else
      var task, rest := m.subq[0], m.(subq := m.subq[1..]);
      if KeyOf(task) !in m.done then (rest.(inflight := m.inflight + {task}), Some(task))
      else TakeSub(rest.(meta := m.meta - {task}))
  }

  /** A page moves from the head of a unit's queue to the in-flight set and is counted; empty units are passed over. */
  function Pop(m: Mem, units: seq<Unit>): (r: (Mem, Option<Task>))
    requires m.asked.Keys == m.pages.Keys
    requires forall u :: u in units ==> u in m.pages
  {
    if units == [] then (m, None)
    else
      var u := units[0];
      if m.pages[u] == [] then Pop(m, units[1..])
      else
        var task := m.pages[u][0];
        (m.(pages := m.pages[u := m.pages[u][1..]], asked := m.asked[u := m.asked[u] + 1],
            inflight := m.inflight + {task}), Some(task))
  }

  /** An owed subpage, or with none left the next page. */
  function TakeOwed(m: Mem, units: seq<Unit>): (r: (Mem, Option<Task>))
    requires m.asked.Keys == m.pages.Keys
    requires forall u :: u in units ==> u in m.pages
  {
    var (m1, task) := TakeSub(m);
    if task.Some? then (m1, task) else Pop(m1, units)
  }

  /** One start in four may take a page of the early units ahead of the owed subpages. */
  function Take(m: Mem, early: seq<Unit>, units: seq<Unit>): (r: (Mem, Option<Task>))
    requires m.asked.Keys == m.pages.Keys
    requires forall u :: u in early + units ==> u in m.pages
  {
    assert forall u :: u in early || u in units ==> u in early + units;
    var (m0, task) := Pop(m, early);
    if task.Some? then (m0, task) else TakeOwed(m, units)
  }

  // ------------------------------------------------------------------ requeue

  /** Out of flight and into a queue: the owed one if the task has a meta, else its unit's, which may not exist. */
  function Requeue(m: Mem, task: Task, front: bool): Effect
    requires m.asked.Keys == m.pages.Keys
  {
    var m1 := m.(inflight := m.inflight - {task});
    var u := UnitOf(task);
    if task in m.meta then Effect(m1.(subq := [task] + m.subq), Requeued)
    else if u !in m.pages then Effect(m1, UnitKeyError)
    else
      var q := if front then [task] + m.pages[u] else m.pages[u] + [task];
      Effect(m1.(pages := m.pages[u := q], asked := m.asked[u := m.asked[u] - 1]), Requeued)
  }

  // ------------------------------------------------------------------ settle

  predicate Silent(m: Mem, task: Task, a: Answer) {
    || (a.status == Http(504) && (task.size >= PAGE || Fails(m, KeyOf(task)) >= 3))
    || (a.status == Http(400) && task.size < PAGE)
  }

  predicate Answered(m: Mem, task: Task, a: Answer) {
    Silent(m, task, a) || (a.status.Ok? && (a.complete || a.rows > 0))
  }

  predicate Whole(a: Answer) {
    a.status.Ok? && a.complete
  }

  /** The counters after a failure. */
  function Slower(p: Pace, maxTransient: nat, status: Status): Pace {
    if status == Http(504) then p
    else if status in THROTTLES then p.(throttled := p.throttled + 1)
    else if status in FAST && p.transient < maxTransient then p.(transient := p.transient + 1)
    else p.(refused := p.refused + 1, transient := 0)
  }

  /** A silence and a dropped connection go back to the front, a throttle and a refusal to the back. */
  predicate ToFront(p: Pace, maxTransient: nat, status: Status) {
    status == Http(504) || (status !in THROTTLES && status in FAST && p.transient < maxTransient)
  }

  /** A failed request: parked after its ninth when the failure is not the address's, else put back. */
  function Unanswered(m: Mem, maxTransient: nat, task: Task, a: Answer): Effect
    requires m.asked.Keys == m.pages.Keys
  {
    var key := KeyOf(task);
    var m1 := m.(fails := m.fails[key := Fails(m, key) + 1]);
    if Fails(m, key) >= 8 && a.status !in ADDRESS then
      Effect(m1.(inflight := m.inflight - {task}), Parked)
    else
      Requeue(m1.(pace := Slower(m.pace, maxTransient, a.status)), task, ToFront(m.pace, maxTransient, a.status))
  }

  /** A subpage that lies before the cut: a lower sibling of the settled one. */
  predicate LowerSibling(meta: map<Task, Meta>, parent: Key, task: Task, t: Task)
    requires t in meta
  {
    meta[t].parent == parent && t.page.Number? && task.page.Number? && t.page.n < task.page.n
  }

  function DropLower(subq: seq<Task>, meta: map<Task, Meta>, parent: Key, task: Task): (r: seq<Task>)
    requires forall t :: t in subq ==> t in meta
    ensures forall t :: t in r <==> t in subq && !LowerSibling(meta, parent, task, t)
  {
    if subq == [] then []
    else
      var rest := DropLower(subq[1..], meta, parent, task);
      assert subq == [subq[0]] + subq[1..];
      if LowerSibling(meta, parent, task, subq[0]) then rest else [subq[0]] + rest
  }

  /** The prune keeps order and copies: it takes the lower siblings out and nothing else. */
  lemma {:induction false} DropLowerJoins(a: seq<Task>, b: seq<Task>, meta: map<Task, Meta>, parent: Key, task: Task)
    requires forall t :: t in a + b ==> t in meta
    ensures DropLower(a + b, meta, parent, task) == DropLower(a, meta, parent, task) + DropLower(b, meta, parent, task)
  {
    if a == [] {
      assert a + b == b;
    } else {
      var ab, rest := a + b, a[1..];
      assert ab[0] == a[0] && ab[1..] == rest + b;
      DropLowerJoins(rest, b, meta, parent, task);
      hide LowerSibling;
      var x, y := DropLower(rest, meta, parent, task), DropLower(b, meta, parent, task);
      assert [a[0]] + (x + y) == [a[0]] + x + y;
    }
  }

  lemma {:induction false} DropLowerCopies(subq: seq<Task>, meta: map<Task, Meta>, parent: Key, task: Task, t: Task)
    requires forall t :: t in subq ==> t in meta
    ensures multiset(DropLower(subq, meta, parent, task))[t] ==
            if t in subq && LowerSibling(meta, parent, task, t) then 0 else multiset(subq)[t]
  {
    if subq != [] {
      assert subq == [subq[0]] + subq[1..];
      DropLowerCopies(subq[1..], meta, parent, task, t);
    }
  }

  /** The eight subpages of the probed page that were not probes. */
  function RestOf(task: Task): seq<Task>
    requires task.page.Number?
  {
    seq(|REST|, i requires 0 <= i < |REST| => task.(page := Number(task.page.n / 10 * 10 + REST[i])))
  }

  function WithMeta(meta: map<Task, Meta>, ts: seq<Task>, v: Meta): (r: map<Task, Meta>) {
    map t | t in meta.Keys + (set x | x in ts) :: if t in ts then v else meta[t]
  }

  /** Whether settling a cut subpage shows that its lower siblings came before the cut. */
  predicate Prunes(m: Mem, task: Task, a: Answer) {
    task in m.meta && m.meta[task].role.Cut? && a.edge.Some? && Less(a.edge.value.first, m.meta[task].stop)
  }

  /** Whether settling a probe opens the other eight. */
  predicate Opens(m: Mem, task: Task, a: Answer) {
    task.page.Number? && task in m.meta && m.meta[task].role.Probe? && a.edge.Some? &&
    m.meta[task].parent !in m.probed
  }

  /** The settled task leaves the in-flight set and the owed metas, and the counters ease. */
  function Released(m: Mem, task: Task, a: Answer): Mem {
    m.(inflight := m.inflight - {task}, meta := m.meta - {task},
       pace := if a.status.Ok? then Pace(0, 0, 0) else m.pace.(throttled := 0))
  }

  /** Whether the prune looks up a task that has no meta. */
  predicate PruneRaises(m: Mem, task: Task, a: Answer) {
    Prunes(m, task, a) && exists t :: t in m.subq && t !in m.meta - {task}
  }

  function Pruned(m: Mem, task: Task, a: Answer): Mem
    requires !PruneRaises(m, task, a)
  {
    var m1 := Released(m, task, a);
    if Prunes(m, task, a) then
      m1.(subq := DropLower(m1.subq, m1.meta, m.meta[task].parent, task))
    else m1
  }

  function OpenRest(m: Mem, task: Task, a: Answer): Mem
    requires !PruneRaises(m, task, a)
  {
    var m1 := Pruned(m, task, a);
    if Opens(m, task, a) then
      var parent := m.meta[task].parent;
      m1.(probed := m1.probed + {parent}, meta := WithMeta(m1.meta, RestOf(task), Meta(Rest, parent, "")),
          subq := RestOf(task) + m1.subq)
    else m1
  }

  function SubMeta(task: Task, a: Answer): Meta {
    match a.edge
    case Some(e) => Meta(Cut, KeyOf(task), e.last)
    case None => Meta(Probe, KeyOf(task), "")
  }

  function Split(m: Mem, task: Task, a: Answer): Mem
    requires !PruneRaises(m, task, a) && Sized(KeyOf(task))
  {
    var m1 := OpenRest(m, task, a);
    if Whole(a) then m1
    else
      var subs := Subpages(task, a.edge.Some?);
      m1.(meta := WithMeta(m1.meta, subs, SubMeta(task, a)), subq := subs + m1.subq)
  }

  /** The queue once an answer is taken in, before its key is booked. */
  function Book(m: Mem, task: Task, a: Answer): Effect
    requires Sized(KeyOf(task))
  {
    if PruneRaises(m, task, a) then Effect(Released(m, task, a), PruneKeyError)
    else Effect(Split(m, task, a), Booked)
  }

  function Settle(m: Mem, maxTransient: nat, task: Task, a: Answer): Effect
    requires m.asked.Keys == m.pages.Keys && Sized(KeyOf(task))
  {
    if Answered(m, task, a) then Book(m, task, a) else Unanswered(m, maxTransient, task, a)
  }
}
