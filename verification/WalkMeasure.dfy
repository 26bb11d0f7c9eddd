/** Termination: a measure every booked, parked or counted answer lowers, and what the units conserve. */
module WalkMeasure {
  import opened Strings
  import opened CdxIndex
  import opened WalkState
  import opened WalkSystem
  import opened WalkClean
  import opened WalkSettle
  import WalkRuns
  import opened WalkCleanRuns

  /** W(s) = 1 + 10 * W(s / 10): the page and every subpage it may be split into. */
  function Weight(size: nat): nat {
    if size >= 1000 then 1111 else if size >= 100 then 111 else if size >= 10 then 11 else 1
  }

  /** The answers a task may still cost: nine for each subpage below it, and its own tries left. */
  function Cost(t: Task, fails: map<Key, nat>): nat {
    var f := if KeyOf(t) in fails then fails[KeyOf(t)] else 0;
    9 * (Weight(t.size) - 1) + 9 - (if f < 8 then f else 8)
  }

  ghost function Sum(s: set<Task>, fails: map<Key, nat>): nat {
    if s == {} then 0
    else
      var t :| t in s;
      Cost(t, fails) + Sum(s - {t}, fails)
  }

  lemma {:induction false} SumWithout(s: set<Task>, fails: map<Key, nat>, x: Task)
    requires x in s
    ensures Sum(s, fails) == Cost(x, fails) + Sum(s - {x}, fails)
    decreases |s|
  {
    var t :| t in s && Sum(s, fails) == Cost(t, fails) + Sum(s - {t}, fails);
    if t != x {
      SumWithout(s - {t}, fails, x);
      SumWithout(s - {x}, fails, t);
      assert s - {t} - {x} == s - {x} - {t};
    }
  }

  /** Fewer tasks with more failures behind them cost no more. */
  lemma {:induction false} SumFewer(s: set<Task>, fails: map<Key, nat>, s': set<Task>, fails': map<Key, nat>)
    requires s' <= s && forall t :: t in s' ==> Cost(t, fails') <= Cost(t, fails)
    ensures Sum(s', fails') <= Sum(s, fails)
    decreases |s|
  {
    if s != {} {
      var x :| x in s;
      SumWithout(s, fails, x);
      if x in s' { SumWithout(s', fails', x); } else { assert s' - {x} == s'; }
      SumFewer(s - {x}, fails, s' - {x}, fails');
    }
  }

  lemma SumPlusOne(s: set<Task>, x: Task, fails: map<Key, nat>)
    ensures Sum(s + {x}, fails) <= Sum(s, fails) + Cost(x, fails)
  {
    if x in s {
      assert s + {x} == s;
    } else {
      SumWithout(s + {x}, fails, x);
      assert s + {x} - {x} == s;
    }
  }

  lemma Distribute(n: nat, c: nat)
    ensures (n + 1) * c == n * c + c
  {
  }

  lemma {:induction false} SumPlus(s: set<Task>, ts: seq<Task>, fails: map<Key, nat>, c: nat)
    requires forall t :: t in ts ==> Cost(t, fails) <= c
    ensures Sum(s + (set t | t in ts), fails) <= Sum(s, fails) + |ts| * c
    decreases |ts|
  {
    if ts == [] {
      assert s + (set t | t in ts) == s;
    } else {
      SumPlus(s, ts[1..], fails, c);
      assert ts == [ts[0]] + ts[1..];
      var some := s + (set t | t in ts[1..]);
      assert s + (set t | t in ts) == some + {ts[0]};
      SumPlusOne(some, ts[0], fails);
      Distribute(|ts| - 1, c);
    }
  }

  /** The pages whose other eight subpages a live probe may still open. */
  function Unopened(live: set<Task>, meta: map<Task, Meta>, probed: set<Key>): set<Key> {
    set t | t in live && IsProbe(meta, t) && meta[t].parent !in probed :: meta[t].parent
  }

  /** The live tasks' cost, and for each unopened page its eight subpages of 100 blocks. */
  ghost function Bound(live: set<Task>, meta: map<Task, Meta>, probed: set<Key>, fails: map<Key, nat>): nat {
    Sum(live, fails) + 7992 * |Unopened(live, meta, probed)|
  }

  /** The answers the lane may still book, park or count. */
  ghost function Measure(m: Mem): nat {
    Bound(Live(m), m.meta, m.probed, m.fails)
  }

  lemma SubsetSize<T>(a: set<T>, b: set<T>)
    requires a <= b
    ensures |a| <= |b|
  {
    if a != {} {
      var x :| x in a;
      SubsetSize(a - {x}, b - {x});
    }
  }

  ghost predicate MetasWithin(live: set<Task>, meta: map<Task, Meta>, meta': map<Task, Meta>) {
    forall t :: t in live && t in meta' ==> t in meta && meta'[t] == meta[t]
  }

  lemma UnopenedFewer(live: set<Task>, meta: map<Task, Meta>, probed: set<Key>,
                      live': set<Task>, meta': map<Task, Meta>, probed': set<Key>)
    requires live' <= live && probed <= probed' && MetasWithin(live', meta, meta')
    ensures Unopened(live', meta', probed') <= Unopened(live, meta, probed)
  {
    forall k | k in Unopened(live', meta', probed') ensures k in Unopened(live, meta, probed) {
      var t :| t in live' && IsProbe(meta', t) && meta'[t].parent !in probed' && meta'[t].parent == k;
      assert t in live && IsProbe(meta, t);
    }
  }

  /** Fewer live tasks under the same metas, or more failures: the bound does not grow. */
  lemma BoundFewer(live: set<Task>, meta: map<Task, Meta>, probed: set<Key>, fails: map<Key, nat>,
                   live': set<Task>, meta': map<Task, Meta>, probed': set<Key>, fails': map<Key, nat>)
    requires live' <= live && probed <= probed' && MetasWithin(live', meta, meta')
    requires forall t :: t in live' ==> Cost(t, fails') <= Cost(t, fails)
    ensures Bound(live', meta', probed', fails') <= Bound(live, meta, probed, fails)
  {
    SumFewer(live, fails, live', fails');
    UnopenedFewer(live, meta, probed, live', meta', probed');
    SubsetSize(Unopened(live', meta', probed'), Unopened(live, meta, probed));
  }

  /** A task gone, or its cost down: the bound falls. */
  lemma BoundFalls(live: set<Task>, meta: map<Task, Meta>, probed: set<Key>, fails: map<Key, nat>, x: Task,
                   live': set<Task>, fails': map<Key, nat>)
    requires x in live && live - {x} <= live' <= live
    requires forall t :: t in live' ==> Cost(t, fails') <= Cost(t, fails)
    requires x in live' ==> Cost(x, fails') < Cost(x, fails)
    ensures Bound(live', meta, probed, fails') < Bound(live, meta, probed, fails)
  {
    hide Sum;
    SumWithout(live, fails, x);
    if x in live' { SumWithout(live', fails', x); } else { assert live' == live' - {x}; }
    assert live' - {x} == live - {x};
    SumFewer(live - {x}, fails, live' - {x}, fails');
    UnopenedFewer(live, meta, probed, live', meta, probed);
    SubsetSize(Unopened(live', meta, probed), Unopened(live, meta, probed));
  }

  // ------------------------------------------------------------------ failures

  /** The answers that end in a booking, a parking or a counted failure: all but the address's own. */
  predicate Counts(m: Mem, task: Task, a: Answer) {
    Answered(m, task, a) || a.status !in ADDRESS
  }

  lemma UnansweredBound(max: nat, m: Mem, task: Task, a: Answer)
    requires Clean(m) && task in m.inflight
    ensures Measure(Unanswered(m, max, task, a).mem) <= Measure(m)
    ensures a.status !in ADDRESS ==> Measure(Unanswered(m, max, task, a).mem) < Measure(m)
  {
    var e := Unanswered(m, max, task, a);
    UnansweredFewer(max, m, task, a);
    UnansweredMetas(max, m, task, a);
    FailsCost(m.fails, task);
    BoundFewer(Live(m), m.meta, m.probed, m.fails, Live(e.mem), m.meta, m.probed, e.mem.fails);
    if a.status !in ADDRESS {
      BoundFalls(Live(m), m.meta, m.probed, m.fails, task, Live(e.mem), e.mem.fails);
    }
  }

  lemma UnansweredMetas(max: nat, m: Mem, task: Task, a: Answer)
    requires m.asked.Keys == m.pages.Keys
    ensures var m' := Unanswered(m, max, task, a).mem;
      && m'.meta == m.meta && m'.probed == m.probed
      && m'.fails == m.fails[KeyOf(task) := Fails(m, KeyOf(task)) + 1]
  {
  }

  lemma UnansweredFewer(max: nat, m: Mem, task: Task, a: Answer)
    requires Clean(m) && task in m.inflight
    ensures var m' := Unanswered(m, max, task, a).mem;
      && Live(m) - {task} <= Live(m') <= Live(m)
      && (a.status !in ADDRESS && Fails(m, KeyOf(task)) >= 8 ==> task !in Live(m'))
  {
    var m1 := m.(fails := m.fails[KeyOf(task) := Fails(m, KeyOf(task)) + 1]);
    CleanCounters(m, m1);
    if Fails(m, KeyOf(task)) >= 8 && a.status !in ADDRESS {
      CleanPark(m1, task);
    } else {
      var m2, front := m1.(pace := Slower(m.pace, max, a.status)), ToFront(m.pace, max, a.status);
      CleanCounters(m, m2);
      RequeueLive(m2, task, front);
    }
  }

  lemma FailsCost(fails: map<Key, nat>, task: Task)
    ensures var f := if KeyOf(task) in fails then fails[KeyOf(task)] else 0;
      var fails' := fails[KeyOf(task) := f + 1];
      && (forall t :: Cost(t, fails') <= Cost(t, fails))
      && (f < 8 ==> Cost(task, fails') < Cost(task, fails))
  {
  }

  // ------------------------------------------------------------------ bookings

  lemma UnopenedAdded(live: set<Task>, meta: map<Task, Meta>, probed: set<Key>, ts: seq<Task>, v: Meta)
    requires forall t :: t in ts ==> t !in live
    ensures var u := Unopened(live + (set t | t in ts), WithMeta(meta, ts, v), probed);
      |u| <= |Unopened(live, meta, probed)| + (if v.role.Probe? then 1 else 0)
  {
    var old_, meta' := Unopened(live, meta, probed), WithMeta(meta, ts, v);
    var u := Unopened(live + (set t | t in ts), meta', probed);
    forall k | k in u ensures k in old_ || (v.role.Probe? && k == v.parent) {
      var t :| (t in live || t in ts) && IsProbe(meta', t) && meta'[t].parent !in probed && meta'[t].parent == k;
      if t !in ts { assert t in live && IsProbe(meta, t); }
    }
    if v.role.Probe? {
      SubsetSize(u, old_ + {v.parent});
    } else {
      SubsetSize(u, old_);
    }
  }

  lemma BoundAdded(live: set<Task>, meta: map<Task, Meta>, probed: set<Key>, fails: map<Key, nat>,
                   ts: seq<Task>, v: Meta, c: nat)
    requires forall t :: t in ts ==> t !in live && Cost(t, fails) <= c
    ensures Bound(live + (set t | t in ts), WithMeta(meta, ts, v), probed, fails) <=
            Bound(live, meta, probed, fails) + |ts| * c + (if v.role.Probe? then 7992 else 0)
  {
    SumPlus(live, ts, fails, c);
    UnopenedAdded(live, meta, probed, ts, v);
  }

  lemma BoundBase(m: Mem, task: Task, a: Answer)
    requires Clean(m) && task in m.inflight && !PruneRaises(m, task, a)
    ensures Measure(Base(m, task, a)) + Cost(task, m.fails) <= Measure(m)
    ensures Unopened(Live(Base(m, task, a)), Base(m, task, a).meta, m.probed) <= Unopened(Live(m), m.meta, m.probed)
    ensures Sum(Live(Base(m, task, a)), m.fails) + Cost(task, m.fails) <= Sum(Live(m), m.fails)
  {
    var b := Base(m, task, a);
    CleanBase(m, task, a);
    SumWithout(Live(m), m.fails, task);
    SumFewer(Live(m) - {task}, m.fails, Live(b), m.fails);
    UnopenedFewer(Live(m), m.meta, m.probed, Live(b), b.meta, m.probed);
    SubsetSize(Unopened(Live(b), b.meta, m.probed), Unopened(Live(m), m.meta, m.probed));
  }

  /** Opening the eight siblings spends the page's reserve. */
  lemma BoundUnfolded(m: Mem, task: Task, a: Answer)
    requires Clean(m) && task in m.inflight && !PruneRaises(m, task, a)
    ensures Measure(Unfolded(m, task, a)) + Cost(task, m.fails) <= Measure(m)
  {
    var b := Base(m, task, a);
    BoundBase(m, task, a);
    if Opens(m, task, a) {
      var v, ts := Meta(Rest, m.meta[task].parent, ""), RestOf(task);
      var probed := b.probed + {v.parent};
      RestCosts(m, task, a);
      BoundAdded(Live(b), b.meta, probed, m.fails, ts, v, 999);
      UnopenedFalls(m, task, a);
      RestLive(m, task, a);
    }
  }

  lemma RestCosts(m: Mem, task: Task, a: Answer)
    requires Clean(m) && task in m.inflight && !PruneRaises(m, task, a) && Opens(m, task, a)
    ensures forall t :: t in RestOf(task) ==> t !in Live(Base(m, task, a)) && Cost(t, m.fails) <= 999
  {
    CleanBase(m, task, a);
    forall t | t in RestOf(task) ensures t !in Live(m) && Cost(t, m.fails) <= 999 {
      RestNotLive(m, task, a, t);
      assert t.size == task.size;
    }
  }

  lemma RestLive(m: Mem, task: Task, a: Answer)
    requires Clean(m) && task in m.inflight && !PruneRaises(m, task, a) && Opens(m, task, a)
    ensures Live(Unfolded(m, task, a)) == Live(Base(m, task, a)) + (set t | t in RestOf(task))
  {
    var v, b := Meta(Rest, m.meta[task].parent, ""), Base(m, task, a);
    RestFresh(m, task, a);
    CleanAdded(b.(probed := b.probed + {v.parent}), RestOf(task), v);
    assert Live(b.(probed := b.probed + {v.parent})) == Live(b);
  }

  lemma UnopenedLoses(live: set<Task>, meta: map<Task, Meta>, probed: set<Key>, task: Task,
                      live': set<Task>, meta': map<Task, Meta>)
    requires task in live && IsProbe(meta, task) && meta[task].parent !in probed
    requires Unopened(live', meta', probed) <= Unopened(live, meta, probed)
    ensures |Unopened(live', meta', probed + {meta[task].parent})| + 1 <= |Unopened(live, meta, probed)|
  {
    var parent := meta[task].parent;
    UnopenedFewer(live', meta', probed, live', meta', probed + {parent});
    assert parent in Unopened(live, meta, probed);
    SubsetSize(Unopened(live', meta', probed + {parent}), Unopened(live, meta, probed) - {parent});
  }

  lemma UnopenedFalls(m: Mem, task: Task, a: Answer)
    requires Clean(m) && task in m.inflight && !PruneRaises(m, task, a) && Opens(m, task, a)
    ensures var b := Base(m, task, a); var parent := m.meta[task].parent;
      |Unopened(Live(b), b.meta, b.probed + {parent})| + 1 <= |Unopened(Live(m), m.meta, m.probed)|
  {
    var b, parent := Base(m, task, a), m.meta[task].parent;
    BoundBase(m, task, a);
    assert IsProbe(m.meta, task) && task in Live(m);
    UnopenedLoses(Live(m), m.meta, m.probed, task, Live(b), b.meta);
  }

  /** A page costs more than the subpages it is split into and the reserve of its probes. */
  lemma SubpagesCost(task: Task, cut: bool, fails: map<Key, nat>)
    requires Sized(KeyOf(task)) && Subpages(task, cut) != []
    ensures var ts := Subpages(task, cut); var c := 9 * Weight(task.size / 10);
      && (forall t :: t in ts ==> Cost(t, fails) <= c)
      && |ts| * c + (if cut then 0 else 7992) < Cost(task, fails)
  {
    var ts, w := Subpages(task, cut), Weight(task.size / 10);
    forall t | t in ts ensures Cost(t, fails) <= 9 * w {
      SubpageOf(task, cut, t);
    }
    if cut {
      assert |ts| == 10;
      if task.size == 10 { assert w == 1; } else if task.size == 100 { assert w == 11; } else { assert w == 111; }
    } else {
      assert |ts| == 2 && w == 111;
    }
  }

  /** Every booked answer lowers the measure. */
  lemma BookedBound(m: Mem, task: Task, a: Answer)
    requires Clean(m) && task in m.inflight && !PruneRaises(m, task, a) && Sized(KeyOf(task))
    ensures Measure(Split(m, task, a)) < Measure(m)
  {
    hide Clean, Live, Unopened, Sum, Split;
    var b, m' := Unfolded(m, task, a), Split(m, task, a);
    BoundUnfolded(m, task, a);
    CleanUnfolded(m, task, a);
    SplitIsAdded(m, task, a);
    MeasureDone(m', KeyOf(task));
    if LeavesSubpages(task, a) {
      var ts, v := Subpages(task, a.edge.Some?), SubMeta(task, a);
      SubsFresh(m, task, a, b);
      CleanAdded(b, ts, v);
      SubpagesCost(task, a.edge.Some?, m.fails);
      forall t | t in ts ensures t !in Live(b) {
        assert t in Live(b) ==> KeyOf(t) != KeyOf(t);
      }
      BoundAdded(Live(b), b.meta, b.probed, m.fails, ts, v, 9 * Weight(task.size / 10));
    }
  }

  lemma MeasureDone(m: Mem, k: Key)
    ensures Measure(m.(done := m.done + {k})) == Measure(m)
  {
    assert Live(m.(done := m.done + {k})) == Live(m);
  }

  // ------------------------------------------------------------------ runs

  /** A settled answer that is not one of the address's own failures. */
  predicate CountedStep(s: Sys, step: Step) {
    step.Settles? && Counts(s.mem, step.task, step.a)
  }

  ghost function Counted(states: seq<Sys>, steps: seq<Step>, n: nat): nat
    requires n <= |steps| <= |states|
  {
    if n == 0 then 0 else Counted(states, steps, n - 1) + (if CountedStep(states[n - 1], steps[n - 1]) then 1 else 0)
  }

  function AddedBy(step: Step): nat {
    if step.Adds? then |step.tasks| else 0
  }

  function AddedTasks(steps: seq<Step>, n: nat): nat
    requires n <= |steps|
  {
    if n == 0 then 0 else AddedTasks(steps, n - 1) + AddedBy(steps[n - 1])
  }

  lemma TakeBound(m: Mem, early: seq<Unit>, units: seq<Unit>)
    requires Clean(m) && forall u :: u in early + units ==> u in m.pages
    ensures Measure(Take(m, early, units).0) <= Measure(m)
  {
    var m' := Take(m, early, units).0;
    CleanTake(m, early, units);
    BoundFewer(Live(m), m.meta, m.probed, m.fails, Live(m'), m'.meta, m'.probed, m'.fails);
  }

  lemma RequeueBound(m: Mem, task: Task)
    requires Clean(m) && task in m.inflight
    ensures Measure(Requeue(m, task, true).mem) == Measure(m)
  {
    CleanRequeue(m, task, true);
  }

  lemma AddBound(m: Mem, u: Unit, tasks: seq<Task>)
    requires Clean(m) && u !in m.pages && GoodPlan(map[u := tasks])
    ensures Measure(AddPages(m, u, tasks)) <= Measure(m) + 9999 * |tasks|
  {
    var m', left := AddPages(m, u, tasks), NotDone(tasks, m.done);
    var wider := Live(m) + (set t | t in left);
    forall t | t in Live(m') ensures t in wider {
      if t in Queued(m') {
        var v :| v in m'.pages && t in m'.pages[v];
        if v != u { assert t in m.pages[v]; }
      }
    }
    forall t | t in left ensures Cost(t, m.fails) <= 9999 && t !in m.meta {
      assert t in map[u := tasks][u];
      assert t in m.meta ==> Subpage(t, m.meta[t]);
    }
    SumPlus(Live(m), left, m.fails, 9999);
    SumFewer(wider, m.fails, Live(m'), m.fails);
    UnopenedRoots(Live(m), m.meta, m.probed, Live(m'), left);
  }

  lemma UnopenedRoots(live: set<Task>, meta: map<Task, Meta>, probed: set<Key>, live': set<Task>, roots: seq<Task>)
    requires live' <= live + (set t | t in roots) && forall t :: t in roots ==> t !in meta
    ensures |Unopened(live', meta, probed)| <= |Unopened(live, meta, probed)|
  {
    forall k | k in Unopened(live', meta, probed) ensures k in Unopened(live, meta, probed) {
      var t :| t in live' && IsProbe(meta, t) && meta[t].parent !in probed && meta[t].parent == k;
      assert t in live;
    }
    SubsetSize(Unopened(live', meta, probed), Unopened(live, meta, probed));
  }

  lemma StepBound(idx: Index, max: nat, s: Sys, step: Step)
    requires CleanSys(s) && Enabled(idx, max, s, step) && CleanStep(s, step) && !step.Kill? && !step.KillInSettle?
    ensures Measure(Apply(idx, max, s, step).mem) + (if CountedStep(s, step) then 1 else 0) <=
            Measure(s.mem) + 9999 * AddedBy(step)
  {
    hide Live, GoodLive, Split, Bound, Staffed, Clean;
    match step
    case Takes(early, units) => TakeBound(s.mem, early, units);
    case Asks(_, _, _) =>
    case Settles(task, a, tail) =>
      Holds(s, Asking(task));
      NeverRaises(max, s.mem, task, a);
      if Answered(s.mem, task, a) {
        BookedBound(s.mem, task, a);
        MeasureDone(Split(s.mem, task, a), KeyOf(task));
      } else {
        UnansweredBound(max, s.mem, task, a);
      }
    case AskFails(task, raised, tail) =>
      Holds(s, if raised then Raised(task) else Asking(task));
      RequeueBound(s.mem, task);
    case Adds(u, tasks) => AddBound(s.mem, u, tasks);
  }

  /** Termination: over one process's life the answers that are not the address's own failures number
      at most what the clean lane's pages cost at its start, and 9,999 for each page added since. */
  lemma {:induction false} AnswersBounded(idx: Index, max: nat, states: seq<Sys>, steps: seq<Step>, n: nat)
    requires Run(idx, max, states, steps) && n <= |steps| && CleanSys(states[0])
    requires forall i :: 0 <= i < n ==> CleanStep(states[i], steps[i]) && !steps[i].Kill? && !steps[i].KillInSettle?
    ensures CleanSys(states[n])
    ensures Counted(states, steps, n) + Measure(states[n].mem) <= Measure(states[0].mem) + 9999 * AddedTasks(steps, n)
  {
    if n > 0 {
      AnswersBounded(idx, max, states, steps, n - 1);
      CleanSysStep(idx, max, states[n - 1], steps[n - 1]);
      StepBound(idx, max, states[n - 1], steps[n - 1]);
    }
  }

  /** A lane of unanswered pages and questions costs at most 9,999 answers each. */
  lemma FreshLaneCost(s: Sys)
    requires Initial(s)
    ensures Measure(s.mem) <= 9999 * |Live(s.mem)|
  {
    assert Unopened(Live(s.mem), s.mem.meta, s.mem.probed) == {};
    SumAtMost(Live(s.mem), s.mem.fails);
  }

  lemma {:induction false} SumAtMost(s: set<Task>, fails: map<Key, nat>)
    ensures Sum(s, fails) <= 9999 * |s|
  {
    if s != {} {
      var t :| t in s;
      SumWithout(s, fails, t);
      SumAtMost(s - {t}, fails);
    }
  }

  // ------------------------------------------------------------------ conservation

  /** Asked and still queued together stay the unit's total. */
  ghost predicate TotalsKept(m: Mem, m': Mem) {
    && m'.asked.Keys == m'.pages.Keys && m.pages.Keys <= m'.pages.Keys
    && forall u :: u in m.pages && u in m.asked && u in m'.asked ==>
         m'.asked[u] + |m'.pages[u]| == m.asked[u] + |m.pages[u]|
  }

  lemma {:induction false} PopTotals(m: Mem, units: seq<Unit>)
    requires m.asked.Keys == m.pages.Keys && forall u :: u in units ==> u in m.pages
    ensures TotalsKept(m, Pop(m, units).0)
  {
    if units != [] && m.pages[units[0]] == [] {
      PopTotals(m, units[1..]);
    }
  }

  lemma RequeueTotals(m: Mem, task: Task, front: bool)
    requires m.asked.Keys == m.pages.Keys
    ensures TotalsKept(m, Requeue(m, task, front).mem)
  {
  }

  lemma SettleTotals(max: nat, m: Mem, task: Task, a: Answer)
    requires m.asked.Keys == m.pages.Keys && Sized(KeyOf(task))
    ensures TotalsKept(m, Settle(m, max, task, a).mem)
  {
    if Answered(m, task, a) {
      var m' := Book(m, task, a).mem;
      assert m'.pages == m.pages && m'.asked == m.asked;
    } else {
      var m1 := m.(fails := m.fails[KeyOf(task) := Fails(m, KeyOf(task)) + 1]);
      var m2, front := m1.(pace := Slower(m.pace, max, a.status)), ToFront(m.pace, max, a.status);
      RequeueTotals(m2, task, front);
    }
  }

  /** No take, answer or failure changes what a unit has asked and still holds together. */
  lemma UnitTotals(idx: Index, max: nat, s: Sys, step: Step)
    requires s.mem.asked.Keys == s.mem.pages.Keys && Enabled(idx, max, s, step)
    requires !step.Kill? && !step.KillInSettle?
    ensures TotalsKept(s.mem, Apply(idx, max, s, step).mem)
  {
    match step
    case Takes(early, units) =>
      assert forall u :: u in early || u in units ==> u in early + units;
      PopTotals(s.mem, early);
      PopTotals(TakeSub(s.mem).0, units);
    case Asks(_, _, _) =>
    case Settles(task, a, _) => SettleTotals(max, s.mem, task, a);
    case AskFails(task, _, _) => RequeueTotals(s.mem, task, true);
    case Adds(_, _) =>
  }
}