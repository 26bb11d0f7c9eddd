/** One worker that takes no page ahead of the owed subpages: these are a stack of slices that lie apart, and no
    call raises, wherever the process is killed. */
module WalkAlone {
  import opened Strings
  import opened CdxIndex
  import opened WalkState
  import opened WalkSystem
  import opened WalkCoverage
  import opened WalkRuns
  import opened WalkProbes
  import opened WalkClean
  import opened WalkSafe
  import WalkSettle

  /** A step after which at most w workers hold a task, and that takes no page ahead of the owed subpages. */
  ghost predicate Within(w: nat, step: Step, s': Sys) {
    |s'.crew| <= w && (step.Takes? ==> step.early == [])
  }

  // ------------------------------------------------------------------ slices that lie apart

  function From(k: Key): nat
    requires k.page.Number?
  {
    k.page.n * k.size
  }

  /** The two slices share no block. */
  predicate Apart(k: Key, l: Key) {
    k.page.Number? && l.page.Number? &&
    (ViewOf(k) != ViewOf(l) || From(k) + k.size <= From(l) || From(l) + l.size <= From(k))
  }

  predicate GoodOwed(o: Owed) {
    Subpage(o.task, o.meta) && (o.meta.role.Probe? ==> o.task.page.n % 10 in PROBES)
  }

  /** Below a probe stands at most the other probe of its page. */
  predicate Over(x: Owed, y: Owed) {
    && Apart(KeyOf(x.task), KeyOf(y.task))
    && (x.meta.role.Probe? ==> y.meta.role.Probe? && y.meta.parent == x.meta.parent)
  }

  ghost predicate OverAll(x: Owed, ys: seq<Owed>) {
    forall y :: y in ys ==> Over(x, y)
  }

  ghost predicate Stack(ls: seq<Owed>) {
    ls == [] || (GoodOwed(ls[0]) && OverAll(ls[0], ls[1..]) && Stack(ls[1..]))
  }

  lemma {:induction false} StackOn(xs: seq<Owed>, ys: seq<Owed>)
    requires Stack(xs) && Stack(ys) && forall x, y :: x in xs && y in ys ==> Over(x, y)
    ensures Stack(xs + ys)
  {
    hide Over, GoodOwed;
    if xs == [] {
      assert xs + ys == ys;
    } else {
      assert (xs + ys)[1..] == xs[1..] + ys && xs == [xs[0]] + xs[1..];
      StackOn(xs[1..], ys);
    }
  }

  /** A stack with one line less. */
  lemma {:induction false} StackThin(xs: seq<Owed>, y: Owed, zs: seq<Owed>)
    requires Stack(xs + ([y] + zs))
    ensures Stack(xs + zs)
  {
    hide Over, GoodOwed;
    var all := xs + ([y] + zs);
    if xs == [] {
      assert all[1..] == zs && xs + zs == zs;
    } else {
      assert all[1..] == xs[1..] + ([y] + zs) && (xs + zs)[1..] == xs[1..] + zs;
      assert forall z :: z in (xs + zs)[1..] ==> z in all[1..];
      StackThin(xs[1..], y, zs);
    }
  }

  lemma {:induction false} StackGood(ls: seq<Owed>, i: nat)
    requires Stack(ls) && i < |ls|
    ensures GoodOwed(ls[i]) && forall j :: 0 <= j < |ls| && j != i ==> ls[j].task != ls[i].task
    decreases ls
  {
    if i > 0 {
      StackGood(ls[1..], i - 1);
      assert ls[i] in ls[1..] && Over(ls[0], ls[i]);
      forall j | 0 <= j < |ls| && j != i ensures ls[j].task != ls[i].task {
        if j > 0 { assert ls[1..][j - 1] == ls[j]; }
      }
    } else {
      forall j | 0 < j < |ls| ensures ls[j].task != ls[0].task {
        assert ls[j] in ls[1..];
      }
    }
  }

  // ------------------------------------------------------------------ queues as stacks

  /** The queue is a stack, and every line of it has its meta. */
  ghost predicate StackQueue(subq: seq<Task>, meta: map<Task, Meta>) {
    (forall t :: t in subq ==> t in meta) && Stack(Lines(subq, meta))
  }

  ghost predicate OverQueue(x: Owed, subq: seq<Task>, meta: map<Task, Meta>) {
    forall t :: t in subq ==> t in meta && Over(x, Owed(t, meta[t]))
  }

  lemma LinesSame(subq: seq<Task>, meta: map<Task, Meta>, meta': map<Task, Meta>)
    requires forall t :: t in subq ==> t in meta && t in meta' && meta'[t] == meta[t]
    ensures Lines(subq, meta) == Lines(subq, meta')
  {
  }

  lemma LinesMore(a: seq<Task>, b: seq<Task>, meta: map<Task, Meta>)
    requires forall t :: t in a + b ==> t in meta
    requires forall t :: t in a || t in b ==> t in a + b
    ensures Lines(a + b, meta) == Lines(a, meta) + Lines(b, meta)
  {
  }

  lemma LineOf(subq: seq<Task>, meta: map<Task, Meta>, o: Owed)
    requires forall t :: t in subq ==> t in meta
    ensures o in Lines(subq, meta) <==> o.task in subq && meta[o.task] == o.meta
  {
    if o.task in subq && meta[o.task] == o.meta {
      var i :| 0 <= i < |subq| && subq[i] == o.task;
      assert Lines(subq, meta)[i] == o;
    }
  }

  /** The head of a stack, and the rest. */
  lemma StackHead(subq: seq<Task>, meta: map<Task, Meta>)
    requires StackQueue(subq, meta) && subq != []
    ensures var x := Owed(subq[0], meta[subq[0]]);
      GoodOwed(x) && OverQueue(x, subq[1..], meta) && StackQueue(subq[1..], meta) && subq[0] !in subq[1..]
  {
    hide GoodOwed, Over;
    var ls := Lines(subq, meta);
    assert ls[1..] == Lines(subq[1..], meta);
    var x := Owed(subq[0], meta[subq[0]]);
    forall t | t in subq[1..] ensures Over(x, Owed(t, meta[t])) {
      LineOf(subq[1..], meta, Owed(t, meta[t]));
    }
    if subq[0] in subq[1..] {
      OverSelf(x);
    }
  }

  lemma OverSelf(x: Owed)
    requires GoodOwed(x)
    ensures !Over(x, x)
  {
  }

  /** A line put on top of a stack. */
  lemma StackPush(t: Task, subq: seq<Task>, meta: map<Task, Meta>)
    requires StackQueue(subq, meta) && t in meta && GoodOwed(Owed(t, meta[t]))
    requires OverQueue(Owed(t, meta[t]), subq, meta)
    ensures StackQueue([t] + subq, meta)
  {
    hide GoodOwed, Over;
    var ls, x := Lines([t] + subq, meta), Owed(t, meta[t]);
    assert ls[1..] == Lines(subq, meta);
    forall y | y in ls[1..] ensures Over(x, y) {
      LineOf(subq, meta, y);
    }
  }

  lemma StackKept(subq: seq<Task>, meta: map<Task, Meta>, meta': map<Task, Meta>)
    requires StackQueue(subq, meta) && forall t :: t in subq ==> t in meta' && meta'[t] == meta[t]
    ensures StackQueue(subq, meta')
  {
    LinesSame(subq, meta, meta');
  }

  lemma StackBoth(a: seq<Task>, b: seq<Task>, meta: map<Task, Meta>)
    requires StackQueue(a, meta) && StackQueue(b, meta)
    requires forall t, u :: t in a && u in b ==> Over(Owed(t, meta[t]), Owed(u, meta[u]))
    ensures StackQueue(a + b, meta)
  {
    hide GoodOwed, Over;
    var xs, ys := Lines(a, meta), Lines(b, meta);
    forall x, y | x in xs && y in ys ensures Over(x, y) {
      LineOf(a, meta, x);
      LineOf(b, meta, y);
    }
    StackOn(xs, ys);
    LinesMore(a, b, meta);
  }

  lemma {:induction false} StackDropLower(subq: seq<Task>, meta: map<Task, Meta>, parent: Key, task: Task)
    requires StackQueue(subq, meta)
    ensures StackQueue(DropLower(subq, meta, parent, task), meta)
  {
    if subq != [] {
      hide GoodOwed, Over, StackQueue, LowerSibling;
      StackHead(subq, meta);
      StackDropLower(subq[1..], meta, parent, task);
      var rest := DropLower(subq[1..], meta, parent, task);
      if !LowerSibling(meta, parent, task, subq[0]) { StackPush(subq[0], rest, meta); }
    }
  }

  // ------------------------------------------------------------------ what an answer pushes

  lemma PartsApart(t: Task, i: nat, j: nat)
    requires Sized(KeyOf(t)) && t.page.Number? && t.size >= 10 && i < 10 && j < 10 && i != j
    ensures Apart(KeyOf(Child(t, i)), KeyOf(Child(t, j)))
  {
  }

  /** What lies apart from a page lies apart from its subpages. */
  lemma PartApart(t: Task, i: nat, l: Key)
    requires Sized(KeyOf(t)) && t.page.Number? && t.size >= 10 && i < 10 && Apart(KeyOf(t), l)
    ensures Apart(KeyOf(Child(t, i)), l)
  {
  }

  lemma PartGood(t: Task, i: nat, role: Role, stop: string)
    requires Sized(KeyOf(t)) && t.page.Number? && t.size >= 10 && i < 10 && !role.Rest?
    requires role.Probe? ==> i in PROBES && t.size == PAGE
    ensures GoodOwed(Owed(Child(t, i), Meta(role, KeyOf(t), stop)))
  {
  }

  lemma {:induction false} PartsStack(t: Task, js: seq<nat>, meta: map<Task, Meta>, v: Meta)
    requires Sized(KeyOf(t)) && t.page.Number? && t.size >= 10 && Distinct(js) && forall j :: j in js ==> j < 10
    requires v.parent == KeyOf(t) && !v.role.Rest?
    requires v.role.Probe? ==> t.size == PAGE && forall j :: j in js ==> j in PROBES
    requires forall j :: j in js ==> Child(t, j) in meta && meta[Child(t, j)] == v
    ensures StackQueue(Children(t, js), meta)
  {
    if js != [] {
      var rest := js[1..];
      assert js[0] in js && forall j :: j in rest ==> j in js;
      PartsStack(t, rest, meta, v);
      assert Children(t, js) == [Child(t, js[0])] + Children(t, rest);
      PartGood(t, js[0], v.role, v.stop);
      forall u | u in Children(t, rest) ensures u in meta && Over(Owed(Child(t, js[0]), v), Owed(u, meta[u])) {
        var i :| 0 <= i < |rest| && u == Child(t, rest[i]);
        assert rest[i] in rest && rest[i] == js[i + 1];
        PartsApart(t, js[0], rest[i]);
      }
      StackPush(Child(t, js[0]), Children(t, rest), meta);
    }
  }

  lemma SubsStack(t: Task, a: Answer, meta: map<Task, Meta>)
    requires Sized(KeyOf(t)) && forall u :: u in Subpages(t, a.edge.Some?) ==> u in meta && meta[u] == SubMeta(t, a)
    ensures StackQueue(Subpages(t, a.edge.Some?), meta)
  {
    var cut := a.edge.Some?;
    if Subpages(t, cut) != [] {
      var js := if cut then ALL_TEN else PROBES;
      forall j | j in js ensures Child(t, j) in meta && meta[Child(t, j)] == SubMeta(t, a) {
        var i :| 0 <= i < |js| && js[i] == j;
        assert Subpages(t, cut)[i] == Child(t, j);
      }
      PartsStack(t, js, meta, SubMeta(t, a));
    }
  }

  /** New subpages lie over what their page lay over. */
  lemma SubsOver(t: Task, a: Answer, u: Task, y: Owed)
    requires Sized(KeyOf(t)) && u in Subpages(t, a.edge.Some?) && Apart(KeyOf(t), KeyOf(y.task)) && a.edge.Some?
    ensures Over(Owed(u, SubMeta(t, a)), y)
  {
    WalkSettle.SubpageOf(t, true, u);
    var j: nat :| j in ALL_TEN && u == Child(t, j);
    PartApart(t, j, KeyOf(y.task));
  }

  lemma SiblingsApart(t: Task, n: nat, k: nat)
    requires Sized(KeyOf(t)) && n != k
    ensures Apart(KeyOf(t.(page := Number(n))), KeyOf(t.(page := Number(k))))
  {
  }

  /** The opened eight are good lines apart from each other and from the probes of their page. */
  lemma RestLine(t: Task, v: Meta, i: nat)
    requires GoodOwed(Owed(t, v)) && v.role.Probe? && i < |REST|
    ensures GoodOwed(Owed(RestOf(t)[i], Meta(Rest, v.parent, "")))
    ensures forall j :: 0 <= j < |REST| && j != i ==> Apart(KeyOf(RestOf(t)[i]), KeyOf(RestOf(t)[j]))
    ensures forall y: Owed :: GoodOwed(y) && y.meta.role.Probe? && y.meta.parent == v.parent ==>
      Apart(KeyOf(RestOf(t)[i]), KeyOf(y.task))
  {
    var base := t.page.n / 10 * 10;
    forall j | 0 <= j < |REST| && j != i ensures Apart(KeyOf(RestOf(t)[i]), KeyOf(RestOf(t)[j])) {
      SiblingsApart(t, base + REST[i], base + REST[j]);
    }
    forall y: Owed | GoodOwed(y) && y.meta.role.Probe? && y.meta.parent == v.parent
      ensures Apart(KeyOf(RestOf(t)[i]), KeyOf(y.task))
    {
      assert y.task.page.n / 10 == t.page.n / 10 && y.task.page.n % 10 in PROBES;
      SiblingsApart(t, base + REST[i], y.task.page.n);
    }
  }

  lemma {:induction false} RestStack(t: Task, v: Meta, meta: map<Task, Meta>, n: nat)
    requires GoodOwed(Owed(t, v)) && v.role.Probe? && n <= |REST|
    requires forall u :: u in RestOf(t) ==> u in meta && meta[u] == Meta(Rest, v.parent, "")
    ensures StackQueue(RestOf(t)[n..], meta)
    decreases |REST| - n
  {
    if n < |REST| {
      RestStack(t, v, meta, n + 1);
      RestLine(t, v, n);
      var rest := RestOf(t)[n + 1..];
      forall u | u in rest ensures u in meta && Over(Owed(RestOf(t)[n], Meta(Rest, v.parent, "")), Owed(u, meta[u])) {
        var j :| n + 1 <= j < |REST| && RestOf(t)[j] == u;
      }
      StackPush(RestOf(t)[n], rest, meta);
      assert RestOf(t)[n..] == [RestOf(t)[n]] + rest;
    }
  }

  // ------------------------------------------------------------------ the lane of one worker

  /** The task in flight: a subpage over the queue, or a page of a unit when nothing is owed. */
  ghost predicate OnTop(m: Mem, t: Task) {
    if t in m.meta then GoodOwed(Owed(t, m.meta[t])) && OverQueue(Owed(t, m.meta[t]), m.subq, m.meta)
    else Sized(KeyOf(t)) && Root(KeyOf(t)) && UnitOf(t) in m.pages && m.subq == []
  }

  ghost predicate RootUnits(m: Mem) {
    && m.asked.Keys == m.pages.Keys
    && forall u, t :: u in m.pages && t in m.pages[u] ==> Sized(KeyOf(t)) && Root(KeyOf(t)) && UnitOf(t) == u
  }

  ghost predicate Tower(m: Mem) {
    && RootUnits(m) && GoodMetas(m.meta) && StackQueue(m.subq, m.meta)
    && forall t :: t in m.inflight ==> OnTop(m, t)
  }

  ghost predicate Solo(inflight: set<Task>, crew: multiset<Worker>) {
    || (inflight == {} && crew == multiset{})
    || exists t :: inflight == {t} && crew == multiset{Asking(t)}
  }

  ghost predicate Alone(s: Sys) {
    Tower(s.mem) && Stack(s.disk.pending) && Solo(s.mem.inflight, s.crew)
  }

  // ------------------------------------------------------------------ take

  ghost predicate Fewer(meta: map<Task, Meta>, meta': map<Task, Meta>) {
    forall t :: t in meta' ==> t in meta && meta'[t] == meta[t]
  }

  lemma {:induction false} TakeSubTop(m: Mem)
    requires StackQueue(m.subq, m.meta)
    ensures var (m', task) := TakeSub(m);
      && StackQueue(m'.subq, m'.meta) && Fewer(m.meta, m'.meta)
      && (forall t :: t in m.meta && t !in m.subq ==> t in m'.meta)
      && (task.None? ==> m' == m.(subq := [], meta := m'.meta))
      && (task.Some? ==> var t := task.value;
            && m' == m.(subq := m'.subq, meta := m'.meta, inflight := m.inflight + {t})
            && t in m'.meta && GoodOwed(Owed(t, m'.meta[t])) && OverQueue(Owed(t, m'.meta[t]), m'.subq, m'.meta))
    decreases |m.subq|
  {
    if m.subq != [] {
      hide StackQueue, GoodOwed, Over;
      StackHead(m.subq, m.meta);
      assert m.subq == [m.subq[0]] + m.subq[1..];
      if KeyOf(m.subq[0]) in m.done {
        var m1 := m.(subq := m.subq[1..], meta := m.meta - {m.subq[0]});
        QueueIn(m.subq[1..], m.meta);
        StackKept(m1.subq, m.meta, m1.meta);
        TakeSubTop(m1);
      }
    } else {
      assert m.(subq := []) == m;
    }
  }

  lemma QueueIn(subq: seq<Task>, meta: map<Task, Meta>)
    requires StackQueue(subq, meta)
    ensures forall t :: t in subq ==> t in meta
  {
  }

  lemma {:induction false} PopTop(m: Mem, units: seq<Unit>)
    requires RootUnits(m) && GoodMetas(m.meta) && forall u :: u in units ==> u in m.pages
    ensures var (m', task) := Pop(m, units);
      && RootUnits(m') && m'.meta == m.meta && m'.subq == m.subq && m'.pages.Keys == m.pages.Keys
      && (task.None? ==> m'.inflight == m.inflight)
      && (task.Some? ==> var t := task.value;
            && m'.inflight == m.inflight + {t} && t !in m.meta
            && Sized(KeyOf(t)) && Root(KeyOf(t)) && UnitOf(t) in m'.pages)
  {
    if units != [] {
      var u := units[0];
      if m.pages[u] == [] {
        PopTop(m, units[1..]);
      } else {
        var t := m.pages[u][0];
        assert t in m.pages[u];
        assert t in m.meta ==> Subpage(t, m.meta[t]);
      }
    }
  }

  lemma SoloHired(inflight: set<Task>, crew: multiset<Worker>, t: Task)
    requires Solo(inflight, crew) && |crew + multiset{Asking(t)}| <= 1
    ensures inflight == {} && Solo(inflight + {t}, crew + multiset{Asking(t)})
  {
    assert |crew + multiset{Asking(t)}| == |crew| + 1;
    assert crew == multiset{};
    assert {} + {t} == {t} && multiset{} + multiset{Asking(t)} == multiset{Asking(t)};
  }

  /** The task in flight while the rest of the queue was dropped as booked. */
  lemma DroppedTop(m: Mem, m': Mem, t: Task)
    requires OnTop(m, t) && m'.subq == [] && Fewer(m.meta, m'.meta) && m'.pages.Keys == m.pages.Keys
    requires forall x :: x in m.meta && x !in m.subq ==> x in m'.meta
    ensures OnTop(m', t)
  {
    hide GoodOwed;
    if t in m.meta && t in m.subq { OverSelf(Owed(t, m.meta[t])); }
  }

  lemma TakeTower(m: Mem, units: seq<Unit>, crew: multiset<Worker>)
    requires Tower(m) && Solo(m.inflight, crew) && forall u :: u in units ==> u in m.pages
    requires forall u :: u in [] + units ==> u in m.pages
    requires |crew + Hired(Take(m, [], units).1)| <= 1
    ensures var (m', task) := Take(m, [], units); Tower(m') && Solo(m'.inflight, crew + Hired(task))
  {
    hide StackQueue, GoodOwed, Over, GoodMetas, Solo;
    TakeSubTop(m);
    var (m1, first) := TakeSub(m);
    FewerMetas(m.meta, m1.meta);
    if first.Some? {
      SoloHired(m.inflight, crew, first.value);
    } else {
      PopTop(m1, units);
      var (m2, task) := Pop(m1, units);
      if task.Some? { SoloHired(m.inflight, crew, task.value); }
      forall t | t in m2.inflight ensures OnTop(m2, t) {
        if t in m.inflight { DroppedTop(m, m2, t); }
      }
      assert crew + multiset{} == crew;
    }
  }

  lemma FewerMetas(meta: map<Task, Meta>, meta': map<Task, Meta>)
    requires GoodMetas(meta) && Fewer(meta, meta')
    ensures GoodMetas(meta')
  {
  }

  // ------------------------------------------------------------------ put back

  lemma RequeueTower(m: Mem, task: Task, front: bool)
    requires Tower(m) && m.inflight == {task}
    ensures var e := Requeue(m, task, front);
      e.outcome.Requeued? && Tower(e.mem) && e.mem.inflight == {} && CanSave(e.mem)
  {
    hide StackQueue, GoodOwed, Over, GoodMetas;
    assert OnTop(m, task);
    if task in m.meta {
      StackPush(task, m.subq, m.meta);
      QueueIn([task] + m.subq, m.meta);
    } else {
      QueueIn(m.subq, m.meta);
    }
  }

  /** Parked or put back, behind new counters. */
  lemma UnansweredTower(max: nat, m: Mem, task: Task, a: Answer)
    requires Tower(m) && m.inflight == {task}
    ensures var e := Unanswered(m, max, task, a);
      Writes(e.outcome) && Tower(e.mem) && e.mem.inflight == {} && CanSave(e.mem)
  {
    var m1, front := UnansweredParts(max, m, task, a);
    hide StackQueue, Unanswered, GoodMetas;
    assert Tower(m1) by { assert OnTop(m, task) && OnTop(m1, task); }
    RequeueTower(m1, task, front);
    QueueIn(m.subq, m.meta);
    assert m1.inflight - {task} == {};
  }

  // ------------------------------------------------------------------ a booked answer

  ghost predicate ApartQueue(k: Key, subq: seq<Task>) {
    forall t :: t in subq ==> Apart(k, KeyOf(t))
  }

  lemma TopNotQueued(m: Mem, task: Task)
    requires Tower(m) && task in m.inflight
    ensures task !in m.subq && forall t :: t in m.subq ==> t in m.meta - {task}
  {
    hide GoodOwed;
    QueueIn(m.subq, m.meta);
    assert OnTop(m, task);
    if task in m.subq { OverSelf(Owed(task, m.meta[task])); }
  }

  lemma PrunedQueue(m: Mem, task: Task, a: Answer)
    requires Tower(m) && m.inflight == {task}
    ensures !PruneRaises(m, task, a)
    ensures var m1 := Pruned(m, task, a);
      && m1.meta == m.meta - {task} && (forall t :: t in m1.subq ==> t in m.subq && t in m1.meta)
      && StackQueue(m1.subq, m1.meta)
  {
    hide StackQueue, GoodOwed, Over, GoodMetas;
    TopNotQueued(m, task);
    QueueIn(m.subq, m.meta);
    StackKept(m.subq, m.meta, m.meta - {task});
    if Prunes(m, task, a) { StackDropLower(m.subq, m.meta - {task}, m.meta[task].parent, task); }
  }

  /** The opened eight on top of the probes of their page. */
  lemma RestPushed(task: Task, v: Meta, subq: seq<Task>, meta: map<Task, Meta>)
    requires GoodOwed(Owed(task, v)) && v.role.Probe? && StackQueue(subq, meta)
    requires OverQueue(Owed(task, v), subq, meta) && task !in meta
    ensures var meta' := WithMeta(meta, RestOf(task), Meta(Rest, v.parent, ""));
      StackQueue(RestOf(task) + subq, meta') && ApartQueue(KeyOf(task), RestOf(task) + subq)
  {
    assert Subpage(task, v);
    hide GoodOwed, StackQueue, Apart;
    var rest, w := RestOf(task), Meta(Rest, v.parent, "");
    var meta' := WithMeta(meta, rest, w);
    assert rest[0..] == rest;
    RestStack(task, v, meta', 0);
    QueueIn(subq, meta);
    forall t, u | t in rest && u in subq ensures Over(Owed(t, w), Owed(u, meta[u])) && t != u {
      assert Over(Owed(task, v), Owed(u, meta[u]));
      QueueGood(subq, meta, u);
      RestApart(task, v, t, Owed(u, meta[u]));
    }
    StackKept(subq, meta, meta');
    StackBoth(rest, subq, meta');
    forall t | t in rest ensures Apart(KeyOf(task), KeyOf(t)) {
      RestNotTask(task, v, t);
    }
  }

  lemma QueueGood(subq: seq<Task>, meta: map<Task, Meta>, u: Task)
    requires StackQueue(subq, meta) && u in subq
    ensures GoodOwed(Owed(u, meta[u]))
  {
    var i :| 0 <= i < |subq| && subq[i] == u;
    StackGood(Lines(subq, meta), i);
  }

  lemma RestApart(task: Task, v: Meta, t: Task, y: Owed)
    requires GoodOwed(Owed(task, v)) && v.role.Probe? && t in RestOf(task)
    requires GoodOwed(y) && y.meta.role.Probe? && y.meta.parent == v.parent
    ensures Apart(KeyOf(t), KeyOf(y.task)) && t != y.task
  {
    var i :| 0 <= i < |REST| && t == RestOf(task)[i];
    RestLine(task, v, i);
  }

  lemma RestNotTask(task: Task, v: Meta, t: Task)
    requires GoodOwed(Owed(task, v)) && v.role.Probe? && t in RestOf(task)
    ensures Apart(KeyOf(task), KeyOf(t))
  {
    var i :| 0 <= i < |REST| && t == RestOf(task)[i];
    SiblingsApart(task, task.page.n, t.page.n);
  }

  /** What stands in the queue after the siblings are opened lies apart from the settled slice. */
  lemma OpenedQueue(m: Mem, task: Task, a: Answer)
    requires Tower(m) && m.inflight == {task} && !PruneRaises(m, task, a)
    ensures var m1 := OpenRest(m, task, a);
      && StackQueue(m1.subq, m1.meta) && (task in m.meta ==> ApartQueue(KeyOf(task), m1.subq))
      && (task !in m.meta ==> m1.subq == [])
  {
    hide StackQueue, GoodOwed, GoodMetas;
    PrunedQueue(m, task, a);
    assert OnTop(m, task);
    var m1 := Pruned(m, task, a);
    if task in m.meta {
      assert OverQueue(Owed(task, m.meta[task]), m1.subq, m1.meta);
      if Opens(m, task, a) { RestPushed(task, m.meta[task], m1.subq, m1.meta); }
    }
  }

  lemma SplitQueue(m: Mem, task: Task, a: Answer)
    requires Tower(m) && m.inflight == {task} && !PruneRaises(m, task, a) && Sized(KeyOf(task))
    ensures var m' := Split(m, task, a); StackQueue(m'.subq, m'.meta)
  {
    OpenedQueue(m, task, a);
    assert OnTop(m, task);
    hide StackQueue, GoodOwed, GoodMetas, OpenRest, Over, Apart;
    if !Whole(a) {
      var m1, m', subs := OpenRest(m, task, a), Split(m, task, a), Subpages(task, a.edge.Some?);
      QueueIn(m1.subq, m1.meta);
      SubsStack(task, a, m'.meta);
      if m1.subq == [] {
        assert subs + m1.subq == subs;
      } else {
        SubsPushed(task, a, m1.subq, m1.meta);
      }
    }
  }

  /** The subpages of a slice on top of what lies apart from it. */
  lemma SubsPushed(task: Task, a: Answer, subq: seq<Task>, meta: map<Task, Meta>)
    requires Sized(KeyOf(task)) && task.size < PAGE && StackQueue(subq, meta) && ApartQueue(KeyOf(task), subq)
    ensures var subs := Subpages(task, a.edge.Some?);
      StackQueue(subs + subq, WithMeta(meta, subs, SubMeta(task, a)))
  {
    hide StackQueue, GoodOwed, Over, Apart;
    var subs := Subpages(task, a.edge.Some?);
    var meta' := WithMeta(meta, subs, SubMeta(task, a));
    QueueIn(subq, meta);
    SubsStack(task, a, meta');
    forall t, u | t in subs && u in subq ensures Over(Owed(t, SubMeta(task, a)), Owed(u, meta[u])) && t != u {
      SubsOver(task, a, t, Owed(u, meta[u]));
      OverDiffers(Owed(t, SubMeta(task, a)), Owed(u, meta[u]));
    }
    StackKept(subq, meta, meta');
    StackBoth(subs, subq, meta');
  }

  lemma OverDiffers(x: Owed, y: Owed)
    requires Over(x, y) && x.task.size > 0
    ensures x.task != y.task
  {
  }

  lemma SplitMetas(m: Mem, task: Task, a: Answer)
    requires Tower(m) && m.inflight == {task} && !PruneRaises(m, task, a) && Sized(KeyOf(task))
    ensures GoodMetas(Split(m, task, a).meta)
  {
    assert OnTop(m, task);
    var m' := Split(m, task, a);
    hide Split, StackQueue, Over;
    forall t | t in m'.meta ensures Subpage(t, m'.meta[t]) {
      WalkSettle.SplitMetaIs(m, task, a, t);
      if !Whole(a) && t in Subpages(task, a.edge.Some?) {
        SubGood(task, a, t);
      } else if Opens(m, task, a) && t in RestOf(task) {
        RestGood(task, m.meta[task], t);
      }
    }
  }

  lemma SubGood(task: Task, a: Answer, t: Task)
    requires Sized(KeyOf(task)) && t in Subpages(task, a.edge.Some?)
    ensures Subpage(t, SubMeta(task, a))
  {
    WalkSettle.SubpageOf(task, a.edge.Some?, t);
  }

  lemma RestGood(task: Task, v: Meta, t: Task)
    requires GoodOwed(Owed(task, v)) && v.role.Probe? && t in RestOf(task)
    ensures Subpage(t, Meta(Rest, v.parent, ""))
  {
    var i :| 0 <= i < |REST| && t == RestOf(task)[i];
    RestLine(task, v, i);
  }

  lemma SplitTower(m: Mem, task: Task, a: Answer)
    requires Tower(m) && m.inflight == {task} && Sized(KeyOf(task))
    ensures !PruneRaises(m, task, a)
    ensures var m' := Split(m, task, a); Tower(m') && m'.inflight == {} && CanSave(m')
  {
    PrunedQueue(m, task, a);
    SplitQueue(m, task, a);
    SplitMetas(m, task, a);
    SplitUnits(m, task, a);
    QueueIn(Split(m, task, a).subq, Split(m, task, a).meta);
    hide StackQueue, GoodMetas, Split, PruneRaises;
  }

  lemma SplitUnits(m: Mem, task: Task, a: Answer)
    requires !PruneRaises(m, task, a) && Sized(KeyOf(task))
    ensures var m' := Split(m, task, a);
      m'.pages == m.pages && m'.asked == m.asked && m'.inflight == m.inflight - {task}
  {
  }

  lemma SettleTower(max: nat, m: Mem, task: Task, a: Answer)
    requires Tower(m) && m.inflight == {task} && Sized(KeyOf(task))
    ensures var e := Settle(m, max, task, a);
      Writes(e.outcome) && Tower(e.mem) && e.mem.inflight == {} && CanSave(e.mem)
  {
    hide Tower, Split, Unanswered;
    assert m.asked.Keys == m.pages.Keys by { TowerUnits(m); }
    if Answered(m, task, a) {
      SplitTower(m, task, a);
    } else {
      UnansweredTower(max, m, task, a);
    }
  }

  lemma TowerUnits(m: Mem)
    requires Tower(m)
    ensures RootUnits(m) && GoodMetas(m.meta)
  {
  }

  // ------------------------------------------------------------------ files and restarts

  lemma NoneIn(ts: seq<Task>, s: set<Task>)
    requires forall t :: t in ts ==> t in s
    ensures s == {} ==> ts == []
  {
    if ts != [] { assert ts[0] in s; }
  }

  lemma SavedStack(m: Mem, tail: seq<Task>)
    requires Tower(m) && m.inflight == {} && CanSave(m) && Tail(m, tail)
    ensures Stack(Pending(m, tail))
  {
    NoneIn(tail, m.inflight);
    assert m.subq + tail == m.subq;
  }

  /** Loading a stack, booked lines dropped, gives one. */
  lemma {:induction false} LoadStack(lines: seq<Owed>, done: set<Key>, m: Mem)
    requires (forall t :: t in m.subq <==> t in m.meta) && Stack(Lines(m.subq, m.meta) + lines)
    ensures var m' := LoadPending(lines, done, m);
      (forall t :: t in m'.subq <==> t in m'.meta) && StackQueue(m'.subq, m'.meta)
    decreases |lines|
  {
    var ls := Lines(m.subq, m.meta);
    if lines == [] {
      assert ls + lines == ls;
    } else {
      hide Stack, GoodOwed;
      var x, rest := lines[0], lines[1..];
      assert ls + lines == ls + ([x] + rest);
      if KeyOf(x.task) !in done && x.task !in m.meta {
        var m1 := m.(subq := m.subq + [x.task], meta := m.meta[x.task := x.meta]);
        assert Lines(m1.subq, m1.meta) == ls + [x];
        assert ls + [x] + rest == ls + ([x] + rest);
        LoadStack(rest, done, m1);
      } else {
        StackThin(ls, x, rest);
        LoadStack(rest, done, m);
      }
    }
  }

  lemma RestartTower(d: Disk, plan: map<Unit, seq<Task>>)
    requires Stack(d.pending) && GoodPlan(plan)
    ensures var m := Restart(d, plan); Tower(m) && m.inflight == {}
  {
    RestartLoads(d, plan);
    RestartQueue(d, plan);
    StackMetas(d, plan);
    StackUnits(d, plan);
    hide Stack, StackQueue, Restart, GoodMetas, RootUnits;
  }

  lemma StackUnits(d: Disk, plan: map<Unit, seq<Task>>)
    requires GoodPlan(plan)
    ensures RootUnits(Restart(d, plan))
  {
    RestartLoads(d, plan);
    hide Restart;
  }

  lemma StackMetas(d: Disk, plan: map<Unit, seq<Task>>)
    requires Stack(d.pending)
    ensures GoodMetas(Restart(d, plan).meta)
  {
    var m := Restart(d, plan);
    RestartLoads(d, plan);
    hide Restart, Stack;
    forall t | t in m.meta ensures Subpage(t, m.meta[t]) {
      var i :| 0 <= i < |d.pending| && d.pending[i] == Owed(t, m.meta[t]);
      StackGood(d.pending, i);
    }
  }

  lemma RestartQueue(d: Disk, plan: map<Unit, seq<Task>>)
    requires Stack(d.pending)
    ensures StackQueue(Restart(d, plan).subq, Restart(d, plan).meta)
  {
    hide Stack, StackQueue, LoadPending;
    var m := Restart(d, plan);
    var none := Reset(m.pages, m.asked);
    assert Lines(none.subq, none.meta) + d.pending == d.pending;
    LoadStack(d.pending, d.done, none);
  }

  // ------------------------------------------------------------------ every step

  lemma SoloTask(inflight: set<Task>, crew: multiset<Worker>, w: Worker)
    requires Solo(inflight, crew) && w in crew
    ensures w.Asking? && inflight == {w.task} && crew - multiset{w} == multiset{}
  {
  }

  lemma SettlesAlone(idx: Index, max: nat, s: Sys, step: Step)
    requires Alone(s) && s.mem.asked.Keys == s.mem.pages.Keys && step.Settles? && Enabled(idx, max, s, step)
    ensures Alone(Apply(idx, max, s, step)) && !Raises(max, s, step)
  {
    var Settles(task, a, tail) := step;
    hide Tower, Settle, Journaled, Note;
    SoloTask(s.mem.inflight, s.crew, Asking(task));
    SettleTower(max, s.mem, task, a);
    var e := Settle(s.mem, max, task, a);
    SavedStack(e.mem, tail);
    BookedTower(e.mem, e.mem.done + {KeyOf(task)});
    hide Stack, CanSave, Tail, Pending;
  }

  lemma BookedTower(m: Mem, done: set<Key>)
    requires Tower(m)
    ensures Tower(m.(done := done))
  {
    hide StackQueue;
    forall t | t in m.inflight ensures OnTop(m.(done := done), t) { assert OnTop(m, t); }
  }

  lemma AskFailsAlone(idx: Index, max: nat, s: Sys, step: Step)
    requires Alone(s) && s.mem.asked.Keys == s.mem.pages.Keys && step.AskFails? && Enabled(idx, max, s, step)
    ensures Alone(Apply(idx, max, s, step)) && !Raises(max, s, step)
  {
    var AskFails(task, raised, tail) := step;
    hide Tower;
    SoloTask(s.mem.inflight, s.crew, if raised then Raised(task) else Asking(task));
    RequeueTower(s.mem, task, true);
    SavedStack(Requeue(s.mem, task, true).mem, tail);
    hide Stack, CanSave, Tail, Pending, Requeue;
  }

  lemma AddsAlone(m: Mem, u: Unit, tasks: seq<Task>)
    requires Tower(m) && u !in m.pages && GoodPlan(map[u := tasks])
    ensures Tower(AddPages(m, u, tasks))
  {
    hide StackQueue, GoodMetas, GoodOwed, Over;
    var m' := AddPages(m, u, tasks);
    assert tasks == map[u := tasks][u];
    forall t | t in m'.inflight ensures OnTop(m', t) { assert OnTop(m, t); }
  }

  /** A kill between the two writes leaves a stack in the file: what was to be booked is not on it. */
  lemma WindowAlone(idx: Index, max: nat, s: Sys, step: Step)
    requires Alone(s) && s.mem.asked.Keys == s.mem.pages.Keys && step.KillInSettle? && Enabled(idx, max, s, step)
    ensures Alone(Apply(idx, max, s, step))
  {
    var KillInSettle(task, a, tail, plan) := step;
    hide Tower, Settle, Journaled, Note, Restart;
    SoloTask(s.mem.inflight, s.crew, Asking(task));
    SettleTower(max, s.mem, task, a);
    var e := Settle(s.mem, max, task, a);
    SavedStack(e.mem, tail);
    RestartTower(Disk(Pending(e.mem, tail), s.disk.done), plan);
    hide Stack, CanSave, Tail, Pending;
  }

  lemma AloneStep(idx: Index, max: nat, s: Sys, step: Step)
    requires Alone(s) && s.mem.asked.Keys == s.mem.pages.Keys && Enabled(idx, max, s, step)
    requires Within(1, step, Apply(idx, max, s, step))
    ensures Alone(Apply(idx, max, s, step)) && !Raises(max, s, step)
  {
    match step
    case Takes(early, units) =>
      hide Tower;
      TakeTower(s.mem, units, s.crew);
    case Asks(_, _, _) =>
    case Settles(_, _, _) => SettlesAlone(idx, max, s, step);
    case AskFails(_, _, _) => AskFailsAlone(idx, max, s, step);
    case Adds(u, tasks) =>
      hide Stack, Tower;
      AddsAlone(s.mem, u, tasks);
    case Kill(plan) =>
      hide Stack, Tower;
      RestartTower(s.disk, plan);
    case KillInSettle(_, _, _, _) => WindowAlone(idx, max, s, step);
  }

  // ------------------------------------------------------------------ whole runs

  /** The steps before n are of at most w workers and take no page ahead of the owed subpages. */
  ghost predicate WithinUntil(w: nat, states: seq<Sys>, steps: seq<Step>, n: nat)
    requires n <= |steps| && |states| == |steps| + 1
  {
    forall i :: 0 <= i < n ==> Within(w, steps[i], states[i + 1])
  }

  lemma {:induction false} RunAlone(idx: Index, max: nat, states: seq<Sys>, steps: seq<Step>, n: nat)
    requires Run(idx, max, states, steps) && n <= |steps| && Alone(states[0])
    requires WithinUntil(1, states, steps, n)
    ensures Alone(states[n])
    ensures forall i :: 0 <= i < n ==>
      states[i].mem.asked.Keys == states[i].mem.pages.Keys && !Raises(max, states[i], steps[i])
  {
    if n > 0 {
      hide Alone, Raises, Apply, Enabled;
      RunAlone(idx, max, states, steps, n - 1);
      assert Within(1, steps[n - 1], states[n]);
      AloneStep(idx, max, states[n - 1], steps[n - 1]);
    }
  }

  lemma InitialAlone(s: Sys)
    requires Initial(s)
    ensures Alone(s)
  {
  }

  /** One worker that takes no page ahead of the owed subpages: from a new walk's first state no call raises,
      whatever the plans and the answers and wherever the kills fall. */
  lemma AloneNeverRaises(idx: Index, max: nat, states: seq<Sys>, steps: seq<Step>)
    requires Run(idx, max, states, steps) && Initial(states[0]) && WithinUntil(1, states, steps, |steps|)
    ensures forall i :: 0 <= i < |steps| ==>
      states[i].mem.asked.Keys == states[i].mem.pages.Keys && !Raises(max, states[i], steps[i])
  {
    InitialAlone(states[0]);
    RunAlone(idx, max, states, steps, |steps|);
  }

  // ------------------------------------------------------------------ no row is lost

  /** A probe that has shown a row is of a page whose other eight subpages were queued. */
  ghost predicate ShownOpened(h: History) {
    forall p :: p in h.shown && p.page.Number? && p.page.n % 10 in PROBES && p.size * 10 == PAGE ==>
      Parent(p) in h.unfolded
  }

  /** Lane, files and history of one worker. */
  ghost predicate AloneKept(idx: Index, s: Sys) {
    Alone(s) && Inv(idx, s) && ProbesKept(s) && ShownOpened(s.now) && ShownOpened(s.saved)
  }

  /** The slice held, with its meta: a probe of a page not opened opens it, and a cut one is of an opened page. */
  lemma HeldRole(idx: Index, m: Mem, h: History, task: Task, a: Answer)
    requires GoodMem(idx, m, h) && OnTop(m, task) && task.page.Number? && task.page.n % 10 in PROBES && task.size < PAGE
    requires a.edge.Some?
    ensures Parent(KeyOf(task)) in h.unfolded || (Opens(m, task, a) && m.meta[task].parent == Parent(KeyOf(task)))
  {
    assert task in m.meta && GoodMeta(idx, h, task, m.meta[task]) && Subpage(task, m.meta[task]);
  }

  lemma AloneTask(s: Sys, task: Task)
    requires Alone(s) && Asking(task) in s.crew
    ensures OnTop(s.mem, task) && s.mem.inflight == {task}
  {
    SoloTask(s.mem.inflight, s.crew, Asking(task));
  }

  /** No answer of the one worker loses a probe. */
  lemma AloneLosesNone(idx: Index, max: nat, s: Sys, step: Step)
    requires AloneKept(idx, s) && s.mem.asked.Keys == s.mem.pages.Keys && Enabled(idx, max, s, step)
    ensures !LosesProbeIn(max, s, step)
  {
    if step.Settles? || step.KillInSettle? {
      assert Asking(step.task) in s.crew && Sized(KeyOf(step.task));
      AloneTask(s, step.task);
      hide Settle, Journaled, CanSave, Tail, Stack;
      LosesNone(idx, s, step.task, step.a);
    }
  }

  lemma LosesNone(idx: Index, s: Sys, task: Task, a: Answer)
    requires GoodMem(idx, s.mem, s.now) && ShownOpened(s.now) && Probed(OwedBy(s.mem), s.mem.done, s.now)
    requires OnTop(s.mem, task) && Sized(KeyOf(task))
    ensures !LosesProbe(s.mem, s.now, task, a)
  {
    var m, h, k := s.mem, s.now, KeyOf(task);
    if a.edge.Some? && ProbeOf(h, k) {
      assert SampledPage(OwedBy(m), m.done, h, Parent(k));
      HeldRole(idx, m, h, task, a);
    }
    if Subpages(task, false) != [] {
      forall j | j in PROBES && Sub(k, j) in h.shown ensures k in h.unfolded {
        assert Parent(Sub(k, j)) == k && Sub(k, j).page.n % 10 == j;
      }
    }
    if Prunes(m, task, a) { assert GoodMeta(idx, h, task, m.meta[task]); }
  }

  lemma NotedShown(idx: Index, m: Mem, h: History, task: Task, a: Answer, e: Effect)
    requires GoodMem(idx, m, h) && OnTop(m, task) && Sized(KeyOf(task)) && ShownOpened(h)
    ensures ShownOpened(Note(h, m, task, a, e))
  {
    var h' := Note(h, m, task, a, e);
    forall p | p in h'.shown && p.page.Number? && p.page.n % 10 in PROBES && p.size * 10 == PAGE
      ensures Parent(p) in h'.unfolded
    {
      if p !in h.shown { HeldRole(idx, m, h, task, a); }
    }
  }

  lemma AloneShown(idx: Index, max: nat, s: Sys, step: Step)
    requires AloneKept(idx, s) && s.mem.asked.Keys == s.mem.pages.Keys && Enabled(idx, max, s, step)
    ensures ShownOpened(Apply(idx, max, s, step).now) && ShownOpened(Apply(idx, max, s, step).saved)
  {
    if step.Settles? || step.KillInSettle? {
      var e := Settle(s.mem, max, step.task, step.a);
      assert Asking(step.task) in s.crew && Sized(KeyOf(step.task)) && GoodMem(idx, s.mem, s.now);
      AloneTask(s, step.task);
      NotedShown(idx, s.mem, s.now, step.task, step.a, e);
      hide Settle, Journaled, CanSave, Tail, Alone, Inv, ProbesKept, Note, Restart, GoodMem, Pending;
    } else {
      hide Alone, Inv, ProbesKept, Take, Requeue, AddPages, Restart, Pending;
    }
  }

  lemma AloneKeptStep(idx: Index, max: nat, s: Sys, step: Step)
    requires AloneKept(idx, s) && s.mem.asked.Keys == s.mem.pages.Keys && Enabled(idx, max, s, step)
    requires Within(1, step, Apply(idx, max, s, step))
    ensures AloneKept(idx, Apply(idx, max, s, step))
  {
    AloneLosesNone(idx, max, s, step);
    AloneShown(idx, max, s, step);
    hide Apply, Enabled, Alone, Inv, ProbesKept, ShownOpened, LosesProbeIn, Within;
    AloneStep(idx, max, s, step);
    RaisesTask(max, s, step);
    StepKept(idx, max, s, step);
  }

  lemma RaisesTask(max: nat, s: Sys, step: Step)
    requires s.mem.asked.Keys == s.mem.pages.Keys && !Raises(max, s, step)
    ensures !LosesTask(max, s, step)
  {
    hide Settle, CanSave;
  }

  lemma {:induction false} RunAloneKept(idx: Index, max: nat, states: seq<Sys>, steps: seq<Step>, n: nat)
    requires Run(idx, max, states, steps) && n <= |steps| && AloneKept(idx, states[0])
    requires WithinUntil(1, states, steps, n)
    ensures AloneKept(idx, states[n])
  {
    if n > 0 {
      hide AloneKept, Apply, Enabled;
      RunAloneKept(idx, max, states, steps, n - 1);
      assert Within(1, steps[n - 1], states[n]);
      AloneKeptStep(idx, max, states[n - 1], steps[n - 1]);
    }
  }

  /** Crash safety of one worker that takes no page ahead of the owed subpages: from a new walk's first state, whatever
      the plans and the answers and wherever the kills fall, each row of each booked slice is in a journal, in a finer
      slice still owed, given up in the log, or in the other eight of two probes none of which has shown a row. */
  lemma AloneCovered(idx: Index, max: nat, states: seq<Sys>, steps: seq<Step>, n: nat)
    requires SortedIndex(idx) && Run(idx, max, states, steps) && Initial(states[0]) && n <= |steps|
    requires WithinUntil(1, states, steps, n)
    ensures AllExplained(idx, OwedBy(states[n].mem), states[n].mem.done, states[n].now)
    ensures AllExplained(idx, OwedOn(states[n].disk), states[n].disk.done, states[n].saved)
  {
    InitialAlone(states[0]);
    InitialInv(idx, states[0]);
    InitialProbes(states[0]);
    RunAloneKept(idx, max, states, steps, n);
    var s := states[n];
    hide Run, WithinUntil, Initial, AllExplained, Alone, Probed;
    CoveredExplained(idx, OwedBy(s.mem), s.mem.done, s.now);
    CoveredExplained(idx, OwedOn(s.disk), s.disk.done, s.saved);
  }
}
