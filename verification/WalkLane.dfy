/** The lane as the walker keeps it: fields changed in place under the lock, each method held to the
    step functions of `WalkState` and `WalkSystem`. */
module WalkLane {
  import opened Strings
  import opened CdxIndex
  import opened WalkState
  import opened WalkSystem

  class Lane {
    var subq: seq<Task>
    var meta: map<Task, Meta>
    var probed: set<Key>
    var inflight: set<Task>
    var done: set<Key>
    var fails: map<Key, nat>
    var pages: map<Unit, seq<Task>>
    var asked: map<Unit, int>
    var throttled: nat
    var refused: nat
    var transient: nat
    const maxTransient: nat
    /** `pending.txt` and `done.txt`. */
    var pendingFile: seq<Owed>
    var doneFile: set<Key>

    function State(): Mem
      reads this
    {
      Mem(subq, meta, probed, inflight, done, fails, pages, asked, Pace(throttled, refused, transient))
    }

    function Files(): Disk
      reads this
    {
      Disk(pendingFile, doneFile)
    }

    predicate Valid()
      reads this
    {
      asked.Keys == pages.Keys
    }

    /** Read both files, drop what is booked, and queue each unit's tasks not answered yet. */
    constructor (d: Disk, plan: map<Unit, seq<Task>>, maxTransient: nat)
      ensures Valid() && State() == Restart(d, plan) && Files() == d && this.maxTransient == maxTransient
    {
      this.maxTransient := maxTransient;
      pendingFile, doneFile, done := d.pending, d.done, d.done;
      var queue: seq<Task>, metas: map<Task, Meta> := [], map[];
      ghost var m0 := Restart(d, plan);
      ghost var blank := Reset(m0.pages, m0.asked);
      var i := 0;
      while i < |d.pending|
        invariant 0 <= i <= |d.pending|
        invariant LoadPending(d.pending, d.done, blank) ==
                  LoadPending(d.pending[i..], d.done, blank.(subq := queue, meta := metas))
      {
        var line := d.pending[i];
        assert d.pending[i..][1..] == d.pending[i + 1..];
        if KeyOf(line.task) !in d.done && line.task !in metas {
          queue := queue + [line.task];
          metas := metas[line.task := line.meta];
        }
        i := i + 1;
      }
      assert d.pending[i..] == [];
      subq, meta := queue, metas;
      probed := set t | t in metas && metas[t].role.Rest? :: metas[t].parent;
      inflight, fails := {}, map[];
      pages := map u | u in plan :: NotDone(plan[u], d.done);
      asked := map u | u in plan :: |plan[u]| - |NotDone(plan[u], d.done)|;
      throttled, refused, transient := 0, 0, 0;
    }

    /** The pending file holds the owed subpages, then the in-flight ones; a task without a meta raises. */
    method SavePending() returns (ok: bool, ghost tail: seq<Task>)
      modifies this`pendingFile
      ensures ok <==> CanSave(State())
      ensures ok ==> Tail(State(), tail) && pendingFile == Pending(State(), tail)
      ensures !ok ==> pendingFile == old(pendingFile)
    {
      tail := [];
      var lines: seq<Owed> := [];
      var i := 0;
      while i < |subq|
        invariant 0 <= i <= |subq|
        invariant forall k :: 0 <= k < i ==> subq[k] in meta
        invariant |lines| == i && forall k :: 0 <= k < i ==> lines[k] == Owed(subq[k], meta[subq[k]])
      {
        if subq[i] !in meta { return false, tail; }
        lines := lines + [Owed(subq[i], meta[subq[i]])];
        i := i + 1;
      }
      var left := inflight * meta.Keys;
      while left != {}
        invariant left <= inflight * meta.Keys && Distinct(tail)
        invariant forall t :: t in tail <==> t in inflight && t in meta && t !in left
        invariant lines == Lines(subq + tail, meta)
        decreases left
      {
        var t :| t in left;
        DistinctConcat(tail, [t]);
        lines := lines + [Owed(t, meta[t])];
        tail := tail + [t];
        left := left - {t};
      }
      pendingFile := lines;
      ok := true;
    }

    /** The loop is the function's recursion, and changes nothing when every queue is empty. */
    method Pop(units: seq<Unit>) returns (task: Option<Task>)
      requires Valid() && forall u :: u in units ==> u in pages
      modifies this`inflight, this`pages, this`asked
      ensures Valid() && (State(), task) == WalkState.Pop(old(State()), units)
      ensures task.None? ==> State() == old(State())
    {
      ghost var m1 := State();
      var i := 0;
      while i < |units|
        invariant 0 <= i <= |units| && State() == m1
        invariant WalkState.Pop(m1, units) == WalkState.Pop(m1, units[i..])
      {
        var u := units[i];
        assert units[i..][0] == u && units[i..][1..] == units[i + 1..];
        if pages[u] != [] {
          var head := pages[u][0];
          pages := pages[u := pages[u][1..]];
          asked := asked[u := asked[u] + 1];
          inflight := inflight + {head};
          return Some(head);
        }
        i := i + 1;
      }
      assert units[i..] == [];
      task := None;
    }

    /** The next task: perhaps an early unit's page, else the head of the owed subpages not booked
        meanwhile, else the first unit's page. */
    method Take(early: seq<Unit>, units: seq<Unit>) returns (task: Option<Task>)
      requires Valid() && forall u :: u in early + units ==> u in pages
      modifies this`subq, this`meta, this`inflight, this`pages, this`asked
      ensures Valid() && (State(), task) == WalkState.Take(old(State()), early, units)
    {
      assert forall u :: u in early || u in units ==> u in early + units;
      task := Pop(early);
      if task.Some? { return; }
      while subq != []
        invariant Valid() && pages == old(pages) && asked == old(asked) && inflight == old(inflight)
        invariant TakeSub(State()) == TakeSub(old(State()))
        decreases |subq|
      {
        var head := subq[0];
        subq := subq[1..];
        if KeyOf(head) !in done {
          inflight := inflight + {head};
          return Some(head);
        }
        meta := meta - {head};
      }
      task := Pop(units);
    }

    /** Put an unanswered task back, then rewrite the pending file. */
    method Requeue(task: Task, front: bool) returns (o: Outcome, ok: bool, ghost tail: seq<Task>)
      requires Valid()
      modifies this`subq, this`inflight, this`pages, this`asked, this`pendingFile
      ensures Valid() && Effect(State(), o) == WalkState.Requeue(old(State()), task, front)
      ensures o.Requeued? || o.UnitKeyError?
      ensures ok <==> Writes(o) && CanSave(State())
      ensures ok ==> Tail(State(), tail) && pendingFile == Pending(State(), tail)
      ensures !ok ==> pendingFile == old(pendingFile)
    {
      inflight := inflight - {task};
      if task in meta {
        subq := [task] + subq;
      } else {
        var u := UnitOf(task);
        if u !in pages { return UnitKeyError, false, []; }
        pages := pages[u := if front then [task] + pages[u] else pages[u] + [task]];
        asked := asked[u := asked[u] - 1];
      }
      o := Requeued;
      ok, tail := SavePending();
    }

    /** The counters that pace the lane after a failure. */
    method Slow(status: Status)
      modifies this`throttled, this`refused, this`transient
      ensures State() == old(State()).(pace := Slower(old(State()).pace, maxTransient, status))
    {
      if status == Http(504) {
      } else if status in THROTTLES {
        throttled := throttled + 1;
      } else if status in FAST && transient < maxTransient {
        transient := transient + 1;
      } else {
        refused, transient := refused + 1, 0;
      }
    }

    /** Count a failure and park the task or put it back. */
    method Fail(task: Task, a: Answer) returns (o: Outcome, ok: bool, ghost tail: seq<Task>)
      requires Valid()
      modifies this
      ensures Valid() && Effect(State(), o) == Unanswered(old(State()), maxTransient, task, a)
      ensures !o.Booked? && !o.PruneKeyError?
      ensures doneFile == old(doneFile)
      ensures ok <==> Writes(o) && CanSave(State())
      ensures ok ==> Tail(State(), tail) && pendingFile == Pending(State(), tail)
      ensures !ok ==> pendingFile == old(pendingFile)
    {
      hide Tail, Pending, CanSave, Slower, WalkState.Requeue;
      var key := KeyOf(task);
      var tries := if key in fails then fails[key] else 0;
      fails := fails[key := tries + 1];
      if tries >= 8 && a.status !in ADDRESS {
        inflight := inflight - {task};
        o := Parked;
        ok, tail := SavePending();
        return;
      }
      var front := ToFront(Pace(throttled, refused, transient), maxTransient, a.status);
      Slow(a.status);
      o, ok, tail := Requeue(task, front);
    }

    /** Release the task, and drop the lower siblings of a cut subpage that starts before the cut. */
    method Prune(task: Task, a: Answer) returns (raised: bool)
      requires Valid()
      modifies this`inflight, this`meta, this`subq, this`throttled, this`refused, this`transient
      ensures raised == PruneRaises(old(State()), task, a)
      ensures State() == if raised then Released(old(State()), task, a) else Pruned(old(State()), task, a)
    {
      throttled := 0;
      if a.status.Ok? { refused, transient := 0, 0; }
      inflight := inflight - {task};
      var found := if task in meta then Some(meta[task]) else None;
      meta := meta - {task};
      raised := false;
      if found.Some? && found.value.role.Cut? && a.edge.Some? && Less(a.edge.value.first, found.value.stop) {
        if exists t :: t in subq && t !in meta { return true; }
        subq := DropLower(subq, meta, found.value.parent, task);
      }
    }

    /** Open the other eight subpages of a probe that has rows. */
    method Open(task: Task, parent: Key)
      requires task.page.Number?
      modifies this`probed, this`meta, this`subq
      ensures State() == old(State()).(probed := old(probed) + {parent},
                meta := WithMeta(old(meta), RestOf(task), Meta(Rest, parent, "")), subq := RestOf(task) + old(subq))
    {
      probed := probed + {parent};
      meta := WithMeta(meta, RestOf(task), Meta(Rest, parent, ""));
      subq := RestOf(task) + subq;
    }

    /** Take one answer in: prune, open, split. */
    method TakeIn(task: Task, a: Answer) returns (o: Outcome)
      requires Valid() && Sized(KeyOf(task))
      modifies this
      ensures Valid() && Effect(State(), o) == Book(old(State()), task, a) && Files() == old(Files())
      ensures o.Booked? || o.PruneKeyError?
    {
      hide Pruned, PruneRaises, Released;
      var found := if task in meta then Some(meta[task]) else None;
      var raised := Prune(task, a);
      if raised { return PruneKeyError; }
      if task.page.Number? && found.Some? && found.value.role.Probe? && a.edge.Some? && found.value.parent !in probed {
        Open(task, found.value.parent);
      }
      if !(a.status.Ok? && a.complete) {
        var subs := Subpages(task, a.edge.Some?);
        meta := WithMeta(meta, subs, SubMeta(task, a));
        subq := subs + subq;
      }
      o := Booked;
    }

    /** Book one answer: the queue, then `pending.txt`, then the done set and `done.txt`. `ok` is false
        when a lookup raised before the files were written. */
    method Settle(task: Task, a: Answer) returns (o: Outcome, ok: bool, ghost tail: seq<Task>)
      requires Valid() && Sized(KeyOf(task))
      modifies this
      ensures Valid()
      ensures var e := WalkState.Settle(old(State()), maxTransient, task, a);
        && o == e.outcome && (ok <==> Writes(o) && CanSave(e.mem))
        && (ok ==> Tail(e.mem, tail) && pendingFile == Pending(e.mem, tail))
        && (!ok ==> pendingFile == old(pendingFile))
        && State() == e.mem.(done := e.mem.done + if ok && o.Booked? then {KeyOf(task)} else {})
        && doneFile == old(doneFile) + if ok && o.Booked? then {KeyOf(task)} else {}
    {
      hide Book, Unanswered, CanSave, Tail, Pending;
      var key := KeyOf(task);
      var tries := if key in fails then fails[key] else 0;
      var silent := (a.status == Http(504) && (task.size >= PAGE || tries >= 3))
        || (a.status == Http(400) && task.size < PAGE);
      if !(silent || (a.status.Ok? && (a.complete || a.rows > 0))) {
        o, ok, tail := Fail(task, a);
        return;
      }
      o := TakeIn(task, a);
      if o.PruneKeyError? { return o, false, []; }
      ok, tail := SavePending();
      if ok {
        done := done + {key};
        doneFile := doneFile + {key};
      }
    }
  }
}
