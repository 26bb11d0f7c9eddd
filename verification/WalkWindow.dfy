/** The kill that breaks the walk: a run of three workers from a new walk's first state in which the process dies
    once, between the rewrite of `pending.txt` and the append to `done.txt`, and a row of a booked page is lost for
    good. */
module WalkWindow {
  import opened Strings
  import opened CdxIndex
  import opened WalkState
  import opened WalkSystem
  import opened WalkCoverage
  import opened WalkProbes
  import opened WalkAlone
  import opened WalkAgain
  import opened WalkSift

  const U := Unit("co.uk", "all")

  function Slice(size: nat, page: nat): Task {
    Task("co.uk", size, Number(page), 1996, 2013, "all")
  }

  /** Page 1 is cut after its third row, whose tenth is the last and holds a fourth; page 0 is silent. */
  const Q := Slice(1000, 1)
  const P := Slice(1000, 0)
  const V := Slice(100, 19)
  const E := Slice(100, 18)
  const P0 := Slice(100, 0)
  const P5 := Slice(100, 5)

  const VIEW := Listing("co.uk", 1996, 2013)
  const IDX: Index := map[VIEW := [Row(1800, "a"), Row(1900, "b"), Row(1901, "c"), Row(1902, "d")]]
  const A := RowId(VIEW, 0)
  const B := RowId(VIEW, 1)
  const C := RowId(VIEW, 2)
  const D := RowId(VIEW, 3)

  const PLAN := map[U := [Q, P]]
  const CUT := Meta(Cut, KeyOf(Q), "c")
  const PROBE := Meta(Probe, KeyOf(P), "")

  const BROKEN := Answer(Ok, false, 3, Some(Edge("a", "c")))
  const SILENCE := Answer(Http(504), false, 0, None)
  const EMPTY := Answer(Ok, true, 0, None)
  const WHOLE := Answer(Ok, true, 1, Some(Edge("a", "a")))
  const SHORT := Answer(Ok, false, 1, Some(Edge("b", "b")))

  // ------------------------------------------------------------------ the ten tenths of page 1

  function Tens(): seq<Task> {
    Subpages(Q, true)
  }

  function Eight(): seq<Task> {
    Tens()[2..]
  }

  function Probes(): seq<Task> {
    [P0, P5]
  }

  function Metas(): map<Task, Meta> {
    WithMeta(map[], Tens(), CUT)
  }

  function AllMetas(): map<Task, Meta> {
    WithMeta(Metas(), Probes(), PROBE)
  }

  /** The metas once page 0's second probe is booked, then once the ninth tenth is, then with page 0 asked again. */
  function Metas5(): map<Task, Meta> {
    AllMetas() - {P5}
  }

  function Metas8(): map<Task, Meta> {
    Metas5() - {E}
  }

  function Again(): map<Task, Meta> {
    WithMeta(Metas8(), Probes(), PROBE)
  }

  lemma TensAre()
    ensures |Tens()| == 10 && Tens() == [V] + ([E] + Eight()) && Distinct(Probes() + Tens())
    ensures forall t :: t in Tens() ==> t.size == 100 && t.page.Number? && 10 <= t.page.n <= 19
    ensures forall t :: t in Eight() ==> t.page.Number? && t.page.n <= 17 && t in Tens()
    ensures V in Tens() && E in Tens() && Subpages(P, false) == Probes()
  {
    forall i | 0 <= i < 10 ensures Tens()[i] == Slice(100, 19 - i) {
    }
    assert Subpages(P, false)[0] == P0 && Subpages(P, false)[1] == P5;
  }

  lemma MetasAre()
    ensures forall t :: t in Metas() <==> t in Tens()
    ensures forall t :: t in AllMetas() <==> t in Probes() || t in Tens()
    ensures forall t :: t in Tens() ==> Metas()[t] == AllMetas()[t] == CUT
    ensures AllMetas()[P0] == AllMetas()[P5] == PROBE
    ensures Metas() - {P} == Metas() && WithMeta(Metas(), Probes(), PROBE) == AllMetas()
  {
    TensAre();
    hide Tens;
    assert forall t :: t in Tens() ==> t !in Probes();
  }

  lemma LaterMetas()
    ensures forall t :: t in Metas5() <==> t == P0 || t in Tens()
    ensures forall t :: t in Metas8() <==> t == P0 || (t in Tens() && t != E)
    ensures forall t :: t in Again() <==> t in Probes() || (t in Tens() && t != E)
    ensures forall t :: t in Metas5() ==> Metas5()[t] == AllMetas()[t]
    ensures forall t :: t in Again() ==> Again()[t] == AllMetas()[t]
    ensures Metas8() - {P} == Metas8()
  {
    MetasAre();
    TensAre();
    hide Tens, AllMetas;
    assert forall t :: t in Tens() ==> t !in Probes();
  }

  // ------------------------------------------------------------------ the states

  function Lane(subq: seq<Task>, meta: map<Task, Meta>, inflight: set<Task>, done: set<Key>, left: seq<Task>): Mem {
    Mem(subq, meta, {}, inflight, done, map[], map[U := left], map[U := 2 - |left|], Pace(0, 0, 0))
  }

  function File(ts: seq<Task>, meta: map<Task, Meta>, done: set<Key>): Disk {
    if forall t :: t in ts ==> t in meta then Disk(Lines(ts, meta), done) else Disk([], {})
  }

  const BLANK := History({}, {}, {}, {}, {}, {}, {})
  const HEARD := BLANK.(received := {A, B, C})
  const KNOWN := HEARD.(shown := {KeyOf(Q)}, unfolded := {KeyOf(Q)})
  const SILENT := KNOWN.(sampled := {KeyOf(P)}, hollow := {KeyOf(P)})
  const FIFTH := SILENT.(hollow := {KeyOf(P), KeyOf(P5)})
  const NINTH := FIFTH.(shown := {KeyOf(Q), KeyOf(E)})
  const LAST := NINTH.(hollow := {KeyOf(P), KeyOf(P5), KeyOf(P0)})
  const ONE := {KeyOf(Q)}
  const TWO := {KeyOf(Q), KeyOf(P5)}
  const THREE := {KeyOf(Q), KeyOf(P5), KeyOf(E)}
  const FOUR := {KeyOf(Q), KeyOf(P5), KeyOf(E), KeyOf(P)}

  function Before(): Disk { File(Probes() + Tens(), AllMetas(), ONE) }
  function Held(): Disk { File([P0, V], Metas8(), THREE) }
  function Twice(): Disk { File([P0, P5, P0, V], Again(), FOUR) }


  function S0(): Sys { Sys(Lane([], map[], {}, {}, [Q, P]), Disk([], {}), BLANK, BLANK, multiset{}) }
  function S1(): Sys { Sys(Lane([], map[], {Q}, {}, [P]), Disk([], {}), BLANK, BLANK, multiset{Asking(Q)}) }
  function S2(): Sys {
    Sys(Lane([], map[], {Q, P}, {}, []), Disk([], {}), BLANK, BLANK, multiset{Asking(Q), Asking(P)})
  }
  function S3(): Sys { S2().(now := HEARD, saved := HEARD) }
  function S4(): Sys {
    Sys(Lane(Tens(), Metas(), {P}, ONE, []), File(Tens(), Metas(), ONE), KNOWN, KNOWN, multiset{Asking(P)})
  }
  function S5(): Sys { Sys(Lane(Probes() + Tens(), AllMetas(), {}, ONE, [P]), Before(), SILENT, SILENT, multiset{}) }
  function S6(): Sys {
    Sys(Lane([P5] + Tens(), AllMetas(), {P0}, ONE, [P]), Before(), SILENT, SILENT, multiset{Asking(P0)})
  }
  function S7(): Sys {
    Sys(Lane(Tens(), AllMetas(), {P0, P5}, ONE, [P]), Before(), SILENT, SILENT, multiset{Asking(P0), Asking(P5)})
  }
  function S8(): Sys {
    Sys(Lane(Tens(), Metas5(), {P0}, TWO, [P]), File(Tens() + [P0], Metas5(), TWO), FIFTH, FIFTH,
        multiset{Asking(P0)})
  }
  function S9(): Sys {
    Sys(Lane([E] + Eight(), Metas5(), {P0, V}, TWO, [P]), S8().disk, FIFTH, FIFTH,
        multiset{Asking(P0), Asking(V)})
  }
  function S10(): Sys {
    Sys(Lane(Eight(), Metas5(), {P0, V, E}, TWO, [P]), S8().disk, FIFTH, FIFTH,
        multiset{Asking(P0), Asking(V), Asking(E)})
  }
  function S11(): Sys {
    Sys(Lane([], Metas8(), {P0, V}, THREE, [P]), Held(), NINTH, NINTH, multiset{Asking(P0), Asking(V)})
  }
  function S12(): Sys {
    Sys(Lane([], Metas8(), {P0, V, P}, THREE, []), Held(), NINTH, NINTH,
        multiset{Asking(P0), Asking(V), Asking(P)})
  }
  function S13(): Sys {
    Sys(Lane(Probes(), Again(), {P0, V}, FOUR, []), Twice(), NINTH, NINTH, multiset{Asking(P0), Asking(V)})
  }
  function S14(): Sys {
    Sys(Lane(Probes(), Again() - {P0}, {V}, FOUR, []), Twice(), LAST, NINTH, multiset{Raised(P0), Asking(V)})
  }
  function S15(): Sys {
    Sys(Lane(Probes(), Again() - {P0} - {V}, {}, FOUR, []), Twice(), LAST, NINTH, multiset{Raised(P0), Raised(V)})
  }
  function S16(): Sys { S15().(crew := multiset{Raised(V)}) }
  function S17(): Sys { S15().(crew := multiset{}) }
  function S18(): Sys {
    Sys(Lane([P5], Again() - {P0} - {V}, {P0}, FOUR, []), Twice(), LAST, NINTH, multiset{Asking(P0)})
  }
  function S19(): Sys {
    Sys(Lane([P5], Again() - {P0} - {V}, {}, FOUR, [P0]), File([P5], Again(), FOUR), LAST, LAST, multiset{})
  }

  // ------------------------------------------------------------------ takes

  ghost predicate Next(s: Sys, step: Step, s': Sys) {
    Follows(IDX, 8, s, step, s')
  }

  lemma TakesSub(s: Sys, task: Task, rest: seq<Task>)
    requires s.mem.subq == [task] + rest && KeyOf(task) !in s.mem.done
    requires s.mem.asked.Keys == s.mem.pages.Keys && U in s.mem.pages
    ensures Next(s, Takes([], [U]), Taken(s, task, rest))
  {
    assert s.mem.subq[1..] == rest;
  }

  lemma TakesUnit(s: Sys, task: Task, rest: seq<Task>)
    requires s.mem == Lane([], s.mem.meta, s.mem.inflight, s.mem.done, [task] + rest) && |rest| <= 1
    ensures Next(s, Takes([], [U]), s.(mem := Lane([], s.mem.meta, s.mem.inflight + {task}, s.mem.done, rest),
                                       crew := s.crew + multiset{Asking(task)}))
  {
    assert ([task] + rest)[1..] == rest;
  }

  lemma FirstTakes()
    ensures Next(S0(), Takes([], [U]), S1()) && Next(S1(), Takes([], [U]), S2())
  {
    hide Next;
    assert [Q, P] == [Q] + [P] && [P] == [P] + [];
    TakesUnit(S0(), Q, [P]);
    TakesUnit(S1(), P, []);
    assert {} + {Q} == {Q} && {Q} + {P} == {Q, P};
    assert multiset{} + multiset{Asking(Q)} == multiset{Asking(Q)};
    assert multiset{Asking(Q)} + multiset{Asking(P)} == multiset{Asking(Q), Asking(P)};
  }

  lemma TakesProbes()
    ensures Next(S5(), Takes([], [U]), S6()) && Next(S6(), Takes([], [U]), S7())
  {
    TensAre();
    hide Tens, Next, AllMetas, Metas, Before, File;
    assert Probes() + Tens() == [P0] + ([P5] + Tens());
    TakesSub(S5(), P0, [P5] + Tens());
    TakesSub(S6(), P5, Tens());
    assert {} + {P0} == {P0} && {P0} + {P5} == {P0, P5};
    assert multiset{} + multiset{Asking(P0)} == multiset{Asking(P0)};
    assert multiset{Asking(P0)} + multiset{Asking(P5)} == multiset{Asking(P0), Asking(P5)};
  }

  lemma TakesTenths()
    ensures Next(S8(), Takes([], [U]), S9()) && Next(S9(), Takes([], [U]), S10())
  {
    TensAre();
    hide Tens, Eight, Next, Metas5, File;
    TakesSub(S8(), V, [E] + Eight());
    TakesSub(S9(), E, Eight());
    assert {P0} + {V} == {P0, V} && {P0, V} + {E} == {P0, V, E};
    assert multiset{Asking(P0)} + multiset{Asking(V)} == multiset{Asking(P0), Asking(V)};
    assert multiset{Asking(P0), Asking(V)} + multiset{Asking(E)} == multiset{Asking(P0), Asking(V), Asking(E)};
  }

  lemma TakesPage()
    ensures Next(S11(), Takes([], [U]), S12())
  {
    hide Next, Metas8, Held;
    assert [P] == [P] + [];
    TakesUnit(S11(), P, []);
    assert {P0, V} + {P} == {P0, V, P};
    assert multiset{Asking(P0), Asking(V)} + multiset{Asking(P)} == multiset{Asking(P0), Asking(V), Asking(P)};
  }

  lemma TakesCopy()
    ensures Next(S17(), Takes([], [U]), S18())
  {
    hide Next, Again, Twice;
    assert Probes() == [P0] + [P5];
    TakesSub(S17(), P0, [P5]);
    assert {} + {P0} == {P0} && multiset{} + multiset{Asking(P0)} == multiset{Asking(P0)};
  }

  // ------------------------------------------------------------------ answers

  lemma QuietHonest(k: Key, a: Answer, h: History)
    requires a.rows == 0 && a.edge.None? && (a.complete ==> a.status.Ok? && (k == KeyOf(P0) || k == KeyOf(P5)))
    ensures Journaled(IDX, h, k, a)
  {
    assert Honest(IDX, k, a, 0) && Delivered(k, 0, 0) == {};
  }

  lemma PageHonest()
    ensures Journaled(IDX, HEARD, KeyOf(Q), BROKEN) && Delivered(KeyOf(Q), 0, 3) == {A, B, C}
    ensures forall i :: 0 <= i < 3 ==> InSlice(IDX, KeyOf(Q), RowId(VIEW, i))
  {
    assert ViewOf(KeyOf(Q)) == VIEW;
    assert RowId(VIEW, 0) in Delivered(KeyOf(Q), 0, 3) && RowId(VIEW, 1) in Delivered(KeyOf(Q), 0, 3);
    assert RowId(VIEW, 2) in Delivered(KeyOf(Q), 0, 3);
    assert Delivered(KeyOf(Q), 0, 3) == {A, B, C};
    assert Honest(IDX, KeyOf(Q), BROKEN, 0);
  }

  lemma TenthsHonest()
    ensures Journaled(IDX, FIFTH, KeyOf(E), WHOLE) && Journaled(IDX, LAST, KeyOf(V), SHORT)
  {
    assert ViewOf(KeyOf(E)) == VIEW && ViewOf(KeyOf(V)) == VIEW;
    assert Delivered(KeyOf(E), 0, 1) <= {A, B, C} && Delivered(KeyOf(V), 1, 1) <= {A, B, C};
    assert Honest(IDX, KeyOf(E), WHOLE, 0);
    assert Honest(IDX, KeyOf(V), SHORT, 1);
  }

  lemma RowsAsked()
    ensures Next(S2(), Asks(Q, 0, 3), S3())
  {
    PageHonest();
    hide InSlice;
    assert {} + {A, B, C} == {A, B, C};
  }

  lemma NoteSets()
    ensures forall s: set<Key> :: s + {} == s
  {
  }

  // ------------------------------------------------------------------ writing the files

  /** An answer that books a slice and can be listed. */
  ghost predicate Books(s: Sys, task: Task, a: Answer, tail: seq<Task>, m: Mem, h: History, ts: seq<Task>)
    requires s.mem.asked.Keys == s.mem.pages.Keys
  {
    && Sized(KeyOf(task)) && Asking(task) in s.crew && Journaled(IDX, s.now, KeyOf(task), a)
    && Settle(s.mem, 8, task, a) == Effect(m, Booked)
    && Note(s.now, s.mem, task, a, Effect(m, Booked)) == h
    && Tail(m, tail) && ts == m.subq + tail && forall t :: t in ts ==> t in m.meta
  }

  lemma Listed(m: Mem, tail: seq<Task>, ts: seq<Task>)
    requires Tail(m, tail) && ts == m.subq + tail && forall t :: t in ts ==> t in m.meta
    ensures CanSave(m) && Pending(m, tail) == Lines(ts, m.meta)
  {
    forall t | t in m.subq ensures t in m.meta { assert t in ts; }
  }

  lemma SettleApplies(s: Sys, task: Task, a: Answer, tail: seq<Task>, m: Mem, h: History, ts: seq<Task>)
    requires s.mem.asked.Keys == s.mem.pages.Keys && Books(s, task, a, tail, m, h, ts)
    ensures Enabled(IDX, 8, s, Settles(task, a, tail))
    ensures var k := KeyOf(task);
      Apply(IDX, 8, s, Settles(task, a, tail)) ==
        Sys(m.(done := m.done + {k}), Disk(Lines(ts, m.meta), s.disk.done + {k}), h, h,
            s.crew - multiset{Asking(task)})
  {
    Listed(m, tail, ts);
    hide Settle, Note, Journaled, Tail, CanSave, Pending;
  }

  /** So the next state is this one. */
  lemma BooksNext(s: Sys, task: Task, a: Answer, tail: seq<Task>, m: Mem, h: History, ts: seq<Task>, s': Sys)
    requires s.mem.asked.Keys == s.mem.pages.Keys && Books(s, task, a, tail, m, h, ts)
    requires s'.mem == m.(done := m.done + {KeyOf(task)}) && s'.now == s'.saved == h
    requires s'.disk == File(ts, m.meta, s.disk.done + {KeyOf(task)}) && s'.crew == s.crew - multiset{Asking(task)}
    ensures Next(s, Settles(task, a, tail), s')
  {
    SettleApplies(s, task, a, tail, m, h, ts);
    FileIs(ts, m.meta, s.disk.done + {KeyOf(task)});
    hide Books, Apply, Enabled, File, Lines;
  }

  lemma KillApplies(s: Sys, task: Task, a: Answer, tail: seq<Task>, m: Mem, h: History, ts: seq<Task>)
    requires s.mem.asked.Keys == s.mem.pages.Keys && Books(s, task, a, tail, m, h, ts)
    requires GoodPlan(PLAN)
    ensures var d := Disk(Lines(ts, m.meta), s.disk.done); var step := KillInSettle(task, a, tail, PLAN);
      Enabled(IDX, 8, s, step) && Apply(IDX, 8, s, step) == Sys(Restart(d, PLAN), d, h, h, multiset{})
  {
    hide Settle;
    Listed(m, tail, ts);
    hide Settle, Note, Journaled, Tail, CanSave, Pending, Restart, GoodPlan;
  }

  lemma FileIs(ts: seq<Task>, meta: map<Task, Meta>, done: set<Key>)
    requires forall t :: t in ts ==> t in meta
    ensures File(ts, meta, done) == Disk(Lines(ts, meta), done)
  {
  }

  lemma CutTaken()
    ensures Settle(S3().mem, 8, Q, BROKEN) == Effect(Lane(Tens(), Metas(), {P}, {}, []), Booked)
    ensures Note(HEARD, S3().mem, Q, BROKEN, Settle(S3().mem, 8, Q, BROKEN)) == KNOWN
  {
    TensAre();
    var none: map<Task, Meta> := map[];
    assert none - {Q} == none && {Q, P} - {Q} == {P} && Tens() + [] == Tens();
    NoteSets();
  }

  lemma CutBooks()
    ensures Books(S3(), Q, BROKEN, [], Lane(Tens(), Metas(), {P}, {}, []), KNOWN, Tens())
  {
    CutTaken();
    PageHonest();
    TensAre();
    MetasAre();
    hide Settle, Note, Journaled, Tens, Metas, AllMetas;
    var m := Lane(Tens(), Metas(), {P}, {}, []);
    assert m.subq + [] == Tens() && P !in Metas();
    assert Tail(m, []);
  }

  lemma CutBooked()
    ensures Next(S3(), Settles(Q, BROKEN, []), S4())
  {
    CutBooks();
    hide Books, Next, Tens, Metas, File;
    assert {} + {KeyOf(Q)} == ONE && multiset{Asking(Q), Asking(P)} - multiset{Asking(Q)} == multiset{Asking(P)};
    BooksNext(S3(), Q, BROKEN, [], Lane(Tens(), Metas(), {P}, {}, []), KNOWN, Tens(), S4());
  }

  // ------------------------------------------------------------------ the kill

  lemma PagesLeft()
    ensures NotDone([Q, P], ONE) == [P]
  {
    assert [Q, P][1..] == [P] && [P][1..] == [];
    assert NotDone([P], ONE) == [P];
  }

  lemma PlanLeft(d: Disk)
    requires d.done == ONE
    ensures Restart(d, PLAN).pages == map[U := [P]] && Restart(d, PLAN).asked == map[U := 1]
  {
    PagesLeft();
    hide NotDone, LoadPending;
  }

  lemma BeforeIs()
    ensures Before() == Disk(Lines(Probes() + Tens(), AllMetas()), ONE)
  {
    MetasAre();
    hide Tens, AllMetas, Lines, File;
    FileIs(Probes() + Tens(), AllMetas(), ONE);
  }

  lemma QueueLoads()
    ensures var ts := Probes() + Tens();
      && Distinct(ts) && (forall t :: t in AllMetas() <==> t in ts) && (forall t :: t in ts ==> KeyOf(t) !in ONE)
      && forall t :: t in AllMetas() ==> !AllMetas()[t].role.Rest?
  {
    TensAre();
    MetasAre();
    hide Tens, AllMetas, Metas, Distinct;
  }

  lemma Loads()
    ensures Restart(Before(), PLAN) == S5().mem
  {
    BeforeIs();
    QueueLoads();
    PlanLeft(Before());
    hide Tens, AllMetas, Lines, Restart, Before, Distinct, KeyOf;
    FileLoads(Before(), PLAN, Probes() + Tens(), AllMetas());
  }

  function Queue(): seq<Task> {
    Probes() + Tens()
  }

  function First(): Mem {
    Lane(Queue(), AllMetas(), {}, ONE, [])
  }

  /** Page 0 is silent: its two probes are queued. */
  lemma FirstSilence()
    ensures Settle(S4().mem, 8, P, SILENCE) == Effect(First(), Booked)
    ensures Note(KNOWN, S4().mem, P, SILENCE, Settle(S4().mem, 8, P, SILENCE)) == SILENT
  {
    TensAre();
    MetasAre();
    hide Tens, Metas;
    assert {P} - {P} == {};
    NoteSets();
    assert {} + {KeyOf(P)} == {KeyOf(P)};
  }

  lemma FirstBooked()
    ensures Books(S4(), P, SILENCE, [], First(), SILENT, Queue())
  {
    FirstSilence();
    MetasAre();
    QuietHonest(KeyOf(P), SILENCE, KNOWN);
    hide Settle, Note, Journaled, Tens, AllMetas, Metas, File, Subpages;
    assert Tail(First(), []) && First().subq + [] == Queue();
  }

  lemma PlanGood()
    ensures GoodPlan(PLAN)
  {
  }

  lemma FirstFile()
    ensures S4().disk.done == ONE
  {
    MetasAre();
    hide Metas, Tens;
    FileIs(Tens(), Metas(), ONE);
  }

  lemma QueueListed()
    ensures forall t :: t in Queue() ==> t in AllMetas()
  {
    MetasAre();
    hide AllMetas;
  }

  lemma KillLoads()
    requires forall t :: t in Queue() ==> t in AllMetas()
    ensures Sys(Restart(Disk(Lines(Queue(), AllMetas()), ONE), PLAN),
                Disk(Lines(Queue(), AllMetas()), ONE), SILENT, SILENT, multiset{}) == S5()
  {
    BeforeIs();
    Loads();
    hide Restart, Lines, AllMetas, Before;
  }

  /** The process dies with the probes in `pending.txt` and their page not in `done.txt`. */
  lemma Dies()
    ensures Next(S4(), KillInSettle(P, SILENCE, [], PLAN), S5())
  {
    hide Books, Restart, Apply, Enabled, AllMetas, Lines, File, S5, GoodPlan, Sized, Queue;
    FirstBooked();
    FirstFile();
    QueueListed();
    PlanGood();
    KillLoads();
    KillApplies(S4(), P, SILENCE, [], First(), SILENT, Queue());
  }

  // ------------------------------------------------------------------ the second life

  lemma FifthTaken()
    ensures Settle(S7().mem, 8, P5, EMPTY) == Effect(Lane(Tens(), Metas5(), {P0}, ONE, [P]), Booked)
    ensures Note(SILENT, S7().mem, P5, EMPTY, Settle(S7().mem, 8, P5, EMPTY)) == FIFTH
  {
    TensAre();
    hide Tens, AllMetas, Unanswered, Subpages;
    assert {P0, P5} - {P5} == {P0};
    NoteSets();
  }

  lemma FifthListed()
    ensures var m := Lane(Tens(), Metas5(), {P0}, ONE, [P]);
      Tail(m, [P0]) && m.subq + [P0] == Tens() + [P0] && forall t :: t in Tens() + [P0] ==> t in m.meta
  {
    LaterMetas();
    hide Tens, Metas5, AllMetas;
    assert forall t :: t in Tens() + [P0] ==> t in Metas5();
  }

  lemma FifthBooks()
    ensures Books(S7(), P5, EMPTY, [P0], Lane(Tens(), Metas5(), {P0}, ONE, [P]), FIFTH, Tens() + [P0])
  {
    FifthTaken();
    FifthListed();
    QuietHonest(KeyOf(P5), EMPTY, SILENT);
    hide Settle, Note, Journaled, Tens, Metas5, AllMetas, File, Tail;
  }

  /** The other probe is booked with no row. */
  lemma FifthBooked()
    ensures Next(S7(), Settles(P5, EMPTY, [P0]), S8())
  {
    FifthBooks();
    BeforeDone();
    hide Books, Next, Tens, Metas5, AllMetas, File, Before;
    assert ONE + {KeyOf(P5)} == TWO && multiset{Asking(P0), Asking(P5)} - multiset{Asking(P5)} == multiset{Asking(P0)};
    BooksNext(S7(), P5, EMPTY, [P0], Lane(Tens(), Metas5(), {P0}, ONE, [P]), FIFTH, Tens() + [P0], S8());
  }

  lemma BeforeDone()
    ensures Before().done == ONE
  {
    BeforeIs();
  }

  lemma {:induction false} AllDropped(subq: seq<Task>, meta: map<Task, Meta>, parent: Key, task: Task)
    requires forall t :: t in subq ==> t in meta && LowerSibling(meta, parent, task, t)
    ensures DropLower(subq, meta, parent, task) == []
  {
    if subq != [] { AllDropped(subq[1..], meta, parent, task); }
  }

  lemma NinthPrunes()
    ensures var m := S10().mem;
      !PruneRaises(m, E, WHOLE) && Prunes(m, E, WHOLE) && Pruned(m, E, WHOLE) == Lane([], Metas8(), {P0, V}, TWO, [P])
  {
    hide DropLower, Probes;
    TensAre();
    MetasAre();
    LaterMetas();
    hide Tens, Eight, AllMetas, Metas, Metas5;
    assert E !in Eight() && Metas5()[E] == CUT && Less("a", "c");
    AllDropped(Eight(), Metas8(), KeyOf(Q), E);
    assert {P0, V, E} - {E} == {P0, V};
  }

  lemma NinthTaken()
    ensures Settle(S10().mem, 8, E, WHOLE) == Effect(Lane([], Metas8(), {P0, V}, TWO, [P]), Booked)
    ensures Note(FIFTH, S10().mem, E, WHOLE, Settle(S10().mem, 8, E, WHOLE)) == NINTH
  {
    NinthPrunes();
    NinthCut();
    hide Pruned, PruneRaises, Prunes, Metas5, Metas8, Unanswered, Eight;
    NoteSets();
    assert {KeyOf(Q)} + {KeyOf(E)} == {KeyOf(Q), KeyOf(E)};
  }

  lemma NinthCut()
    ensures E in Metas5() && Metas5()[E] == CUT
  {
    TensAre();
    MetasAre();
    LaterMetas();
    hide Tens, AllMetas, Metas, Metas5;
  }

  lemma NinthListed()
    ensures var m := Lane([], Metas8(), {P0, V}, TWO, [P]);
      Tail(m, [P0, V]) && m.subq + [P0, V] == [P0, V] && forall t :: t in [P0, V] ==> t in m.meta
  {
    TensAre();
    LaterMetas();
    hide Tens, Metas8, AllMetas;
    assert V in Metas8() && P0 in Metas8();
  }

  lemma NinthBooks()
    ensures Books(S10(), E, WHOLE, [P0, V], Lane([], Metas8(), {P0, V}, TWO, [P]), NINTH, [P0, V])
  {
    NinthTaken();
    NinthListed();
    TenthsHonest();
    hide Settle, Note, Journaled, Tens, Metas8, AllMetas, Metas5, File, Tail, Eight;
  }

  /** The ninth tenth is booked, and its prune drops the eight lower ones. */
  lemma NinthBooked()
    ensures Next(S10(), Settles(E, WHOLE, [P0, V]), S11())
  {
    NinthBooks();
    FifthDone();
    hide Books, Next, Metas8, Metas5, File, Eight, Tens;
    assert TWO + {KeyOf(E)} == THREE;
    assert multiset{Asking(P0), Asking(V), Asking(E)} - multiset{Asking(E)} == multiset{Asking(P0), Asking(V)};
    BooksNext(S10(), E, WHOLE, [P0, V], Lane([], Metas8(), {P0, V}, TWO, [P]), NINTH, [P0, V], S11());
  }

  lemma FifthDone()
    ensures S8().disk.done == TWO
  {
    LaterMetas();
    hide Metas5, Tens;
    FileIs(Tens() + [P0], Metas5(), TWO);
  }

  lemma SecondSplit()
    ensures var m := S12().mem;
      !PruneRaises(m, P, SILENCE) && Split(m, P, SILENCE) == Lane(Probes(), Again(), {P0, V}, THREE, [])
  {
    TensAre();
    LaterMetas();
    hide Tens, Metas8, Unanswered;
    assert {P0, V, P} - {P} == {P0, V} && Probes() + [] == Probes();
  }

  lemma SecondSilence()
    ensures Settle(S12().mem, 8, P, SILENCE) == Effect(Lane(Probes(), Again(), {P0, V}, THREE, []), Booked)
  {
    SecondSplit();
    hide Split, Metas8, Again, Unanswered, PruneRaises, Lane;
  }

  lemma SecondNoted()
    ensures Note(NINTH, S12().mem, P, SILENCE, Effect(Lane(Probes(), Again(), {P0, V}, THREE, []), Booked)) == NINTH
  {
    TensAre();
    LaterMetas();
    hide Tens, Metas8, Again;
    NoteSets();
    assert NINTH.hollow + {KeyOf(P)} == NINTH.hollow && {KeyOf(P)} + {KeyOf(P)} == {KeyOf(P)};
  }

  lemma SecondListed()
    ensures var m := Lane(Probes(), Again(), {P0, V}, THREE, []);
      Tail(m, [P0, V]) && m.subq + [P0, V] == [P0, P5, P0, V] && forall t :: t in [P0, P5, P0, V] ==> t in m.meta
  {
    TensAre();
    LaterMetas();
    hide Tens, Metas8, AllMetas, Again;
    assert V in Again() && P0 in Again() && P5 in Again();
  }

  lemma SecondBooks()
    ensures Books(S12(), P, SILENCE, [P0, V], Lane(Probes(), Again(), {P0, V}, THREE, []), NINTH, [P0, P5, P0, V])
  {
    SecondSilence();
    SecondNoted();
    SecondListed();
    QuietHonest(KeyOf(P), SILENCE, NINTH);
    hide Settle, Note, Journaled, Metas8, Again, Held, Tail, Probes;
  }

  /** The page is asked again, silent again, and booked: its first probe is now queued and in flight. */
  lemma AskedAgain()
    ensures Next(S12(), Settles(P, SILENCE, [P0, V]), S13())
  {
    SecondBooks();
    HeldDone();
    hide Books, Next, Metas8, Again, File, Held;
    assert THREE + {KeyOf(P)} == FOUR;
    assert multiset{Asking(P0), Asking(V), Asking(P)} - multiset{Asking(P)} == multiset{Asking(P0), Asking(V)};
    var m := Lane(Probes(), Again(), {P0, V}, THREE, []);
    BooksNext(S12(), P, SILENCE, [P0, V], m, NINTH, [P0, P5, P0, V], S13());
  }

  lemma HeldDone()
    ensures Held().done == THREE
  {
    TensAre();
    LaterMetas();
    hide Metas8, Tens;
    FileIs([P0, V], Metas8(), THREE);
  }

  lemma ProbeGone()
    ensures Settle(S13().mem, 8, P0, EMPTY) == Effect(S14().mem, Booked)
    ensures Note(NINTH, S13().mem, P0, EMPTY, Effect(S14().mem, Booked)) == LAST
    ensures !CanSave(S14().mem)
  {
    hide Again, Unanswered, WithMeta;
    NoteSets();
    assert {P0, V} - {P0} == {V};
    assert {KeyOf(P), KeyOf(P5)} + {KeyOf(P0)} == {KeyOf(P), KeyOf(P5), KeyOf(P0)};
    assert P0 in S14().mem.subq && P0 !in S14().mem.meta;
  }

  /** An answer after which the queue cannot be listed. */
  lemma Raising(s: Sys, task: Task, a: Answer, e: Effect, h: History, s': Sys)
    requires s.mem.asked.Keys == s.mem.pages.Keys && Asking(task) in s.crew && Sized(KeyOf(task))
    requires Journaled(IDX, s.now, KeyOf(task), a)
    requires Settle(s.mem, 8, task, a) == e && Note(s.now, s.mem, task, a, e) == h
    requires !CanSave(e.mem)
    requires s' == s.(mem := e.mem, now := h, crew := s.crew - multiset{Asking(task)} + multiset{Raised(task)})
    ensures Next(s, Settles(task, a, []), s')
  {
    hide Settle, Note, Journaled, CanSave;
  }

  /** The in-flight copy of the probe is answered: the queued copy has no meta, and listing it raises. */
  lemma ProbeRaises()
    ensures Next(S13(), Settles(P0, EMPTY, []), S14())
  {
    QuietHonest(KeyOf(P0), EMPTY, NINTH);
    ProbeGone();
    hide Journaled, Again, Settle, Note, CanSave, Next, Twice;
    assert multiset{Asking(P0), Asking(V)} - multiset{Asking(P0)} + multiset{Raised(P0)} ==
           multiset{Raised(P0), Asking(V)};
    Raising(S13(), P0, EMPTY, Effect(S14().mem, Booked), LAST, S14());
  }

  lemma TenthGone()
    ensures PruneRaises(S14().mem, V, SHORT) && Settle(S14().mem, 8, V, SHORT) == Effect(S15().mem, PruneKeyError)
    ensures !CanSave(S15().mem)
  {
    hide WithMeta;
    TensAre();
    MetasAre();
    LaterMetas();
    hide Tens, AllMetas, Metas, Again, Unanswered;
    var m := S14().mem;
    assert P0 in m.subq && P0 !in m.meta - {V} && m.meta[V] == CUT && Less("b", "c");
    assert PruneRaises(m, V, SHORT);
    assert {V} - {V} == {};
    assert P0 in S15().mem.subq && P0 !in S15().mem.meta;
  }

  /** The owed tenth of page 1 is cut: its prune looks the copy up, raises, and the task is gone. */
  lemma TenthLost()
    ensures Next(S14(), Settles(V, SHORT, []), S15())
  {
    TenthGone();
    TenthsHonest();
    hide Journaled, Again, Twice, Settle, CanSave, Next, PruneRaises;
    assert Note(LAST, S14().mem, V, SHORT, Effect(S15().mem, PruneKeyError)) == LAST;
    assert multiset{Raised(P0), Asking(V)} - multiset{Asking(V)} + multiset{Raised(V)} ==
           multiset{Raised(P0), Raised(V)};
    Raising(S14(), V, SHORT, Effect(S15().mem, PruneKeyError), LAST, S15());
  }

  /** Neither task is in flight any more, so the handlers of both exceptions put nothing back. */
  lemma NothingBack()
    ensures Next(S15(), AskFails(P0, true, []), S16()) && Next(S16(), AskFails(V, true, []), S17())
  {
    hide Again, Twice;
    assert P0 in Requeue(S15().mem, P0, true).mem.subq || P0 !in S15().mem.meta;
    NoSave(S15().mem, P0);
    NoSave(S15().mem, V);
    assert multiset{Raised(P0), Raised(V)} - multiset{Raised(P0)} == multiset{Raised(V)};
  }

  lemma NoSave(m: Mem, task: Task)
    requires m.asked.Keys == m.pages.Keys && exists t :: t in m.subq && t !in m.meta
    ensures !CanSave(Requeue(m, task, true).mem)
  {
    var t :| t in m.subq && t !in m.meta;
    assert t in Requeue(m, task, true).mem.subq;
  }

  /** The copy taken, its failure rewrites `pending.txt` without the lost task. */
  lemma Rewritten()
    ensures Requeue(S18().mem, P0, true) == Effect(S19().mem, Requeued)
    ensures CanSave(S19().mem) && Tail(S19().mem, [])
    ensures Pending(S19().mem, []) == S19().disk.pending
  {
    LaterMetas();
    hide Tens, AllMetas, Metas8, Again;
    var m, ts := S19().mem, [P5];
    assert [P0] + [] == [P0] && ts + [] == ts && {P0} - {P0} == {};
    FileIs(ts, Again(), FOUR);
    assert Tail(m, []);
    Listed(m, [], ts);
    assert Lines(ts, m.meta) == Lines(ts, Again());
  }

  lemma TwiceDone()
    ensures S19().disk.done == Twice().done
  {
    TensAre();
    LaterMetas();
    hide Tens, AllMetas, Metas8, Again;
    FileIs([P5], Again(), FOUR);
    FileIs([P0, P5, P0, V], Again(), FOUR);
  }

  lemma FileRewritten()
    ensures Next(S18(), AskFails(P0, false, []), S19())
  {
    Rewritten();
    TwiceDone();
    hide Requeue, CanSave, Tail, Pending, Again, File, Twice;
    assert multiset{Asking(P0)} - multiset{Asking(P0)} == multiset{};
  }

  // ------------------------------------------------------------------ the run

  const STATES := [S0(), S1(), S2(), S3(), S4(), S5(), S6(), S7(), S8(), S9(), S10(), S11(), S12(), S13(), S14(),
                   S15(), S16(), S17(), S18(), S19()]
  const STEPS := [
    Takes([], [U]), Takes([], [U]), Asks(Q, 0, 3), Settles(Q, BROKEN, []), KillInSettle(P, SILENCE, [], PLAN),
    Takes([], [U]), Takes([], [U]), Settles(P5, EMPTY, [P0]), Takes([], [U]), Takes([], [U]),
    Settles(E, WHOLE, [P0, V]), Takes([], [U]), Settles(P, SILENCE, [P0, V]), Settles(P0, EMPTY, []),
    Settles(V, SHORT, []), AskFails(P0, true, []), AskFails(V, true, []), Takes([], [U]), AskFails(P0, false, [])]

  ghost predicate NextAt(i: nat)
    requires i < 19
  {
    Next(STATES[i], STEPS[i], STATES[i + 1])
  }

  lemma EarlySteps(i: nat)
    requires i < 7
    ensures NextAt(i)
  {
    hide Next, S0, S1, S2, S3, S4, S5, S6, S7, S8, S9, S10, S11, S12, S13, S14, S15, S16, S17, S18, S19;
    if i < 2 { FirstTakes(); } else if i == 2 { RowsAsked(); } else if i == 3 { CutBooked(); }
    else if i == 4 { Dies(); } else { TakesProbes(); }
  }

  lemma MiddleSteps(i: nat)
    requires 7 <= i < 13
    ensures NextAt(i)
  {
    hide Next, S0, S1, S2, S3, S4, S5, S6, S7, S8, S9, S10, S11, S12, S13, S14, S15, S16, S17, S18, S19;
    if i == 7 { FifthBooked(); } else if i < 10 { TakesTenths(); } else if i == 10 { NinthBooked(); }
    else if i == 11 { TakesPage(); } else { AskedAgain(); }
  }

  lemma LateSteps(i: nat)
    requires 13 <= i < 19
    ensures NextAt(i)
  {
    hide Next, S0, S1, S2, S3, S4, S5, S6, S7, S8, S9, S10, S11, S12, S13, S14, S15, S16, S17, S18, S19;
    if i == 13 { ProbeRaises(); } else if i == 14 { TenthLost(); } else if i < 17 { NothingBack(); }
    else if i == 17 { TakesCopy(); } else { FileRewritten(); }
  }

  lemma AllSteps(i: nat)
    requires i < 19
    ensures NextAt(i)
  {
    hide NextAt;
    if i < 7 { EarlySteps(i); } else if i < 13 { MiddleSteps(i); } else { LateSteps(i); }
  }

  lemma Lengths()
    ensures |STATES| == 20 && |STEPS| == 19
  {
    hide S0, S1, S2, S3, S4, S5, S6, S7, S8, S9, S10, S11, S12, S13, S14, S15, S16, S17, S18, S19;
  }

  lemma IsRun()
    ensures Run(IDX, 8, STATES, STEPS)
  {
    Lengths();
    hide STATES, STEPS, Enabled, Apply, IDX;
    forall i | 0 <= i < |STEPS|
      ensures STATES[i].mem.asked.Keys == STATES[i].mem.pages.Keys
      ensures Enabled(IDX, 8, STATES[i], STEPS[i]) && STATES[i + 1] == Apply(IDX, 8, STATES[i], STEPS[i])
    {
      AllSteps(i);
    }
  }

  lemma Crews()
    ensures |S1().crew| <= 3 && |S2().crew| <= 3 && |S3().crew| <= 3 && |S4().crew| <= 3 && |S5().crew| <= 3
    ensures |S6().crew| <= 3 && |S7().crew| <= 3 && |S8().crew| <= 3 && |S9().crew| <= 3 && |S10().crew| <= 3
    ensures |S11().crew| <= 3 && |S12().crew| <= 3 && |S13().crew| <= 3 && |S14().crew| <= 3 && |S15().crew| <= 3
    ensures |S16().crew| <= 3 && |S17().crew| <= 3 && |S18().crew| <= 3 && |S19().crew| <= 3
  {
    hide Lane, File, Before, Held, Twice, Again, Metas, AllMetas, Metas5, Metas8, Tens, Eight, Probes;
  }

  /** Three workers, and no page is taken ahead of the owed subpages. */
  lemma IsWithin()
    ensures WithinUntil(3, STATES, STEPS, |STEPS|)
  {
    Crews();
    hide S0, S1, S2, S3, S4, S5, S6, S7, S8, S9, S10, S11, S12, S13, S14, S15, S16, S17, S18, S19;
  }

  /** Nobody owes the fourth row any more, and its page is no sampled one. */
  lemma NotExplained(owed: set<Task>, done: set<Key>)
    requires forall t :: t in owed ==> t == P5
    ensures !Explained(IDX, owed, done, LAST, D, PAGE)
  {
    forall t | t in owed ensures !InSlice(IDX, KeyOf(t), D) {
    }
    assert !InRest(IDX, KeyOf(P), D);
  }

  lemma RowGone()
    ensures var s := S19(); var k := KeyOf(Q);
      && k in s.mem.done && k in s.disk.done
      && !Explained(IDX, OwedBy(s.mem), s.mem.done, s.now, D, k.size)
      && !Explained(IDX, OwedOn(s.disk), s.disk.done, s.saved, D, k.size)
  {
    LaterMetas();
    var s := S19();
    hide Explained, Tens, Again, File;
    FileIs([P5], Again(), FOUR);
    NotExplained(OwedBy(s.mem), s.mem.done);
    NotExplained(OwedOn(s.disk), s.disk.done);
  }

  /** The walk is not crash safe at every point: three workers, from a new walk's first state, with one kill, between
      the two writes of a booking, lead to a state in which a row of a booked page is in no journal, owed by no one
      and exempt from nothing, in memory and in the files. */
  lemma KillInWindowLosesRow()
    ensures SortedIndex(IDX) && Initial(STATES[0]) && Run(IDX, 8, STATES, STEPS)
    ensures WithinUntil(3, STATES, STEPS, |STEPS|)
    ensures forall i :: 0 <= i < |STEPS| && (STEPS[i].Kill? || STEPS[i].KillInSettle?) ==> i == 4
    ensures var s := STATES[|STEPS|]; var k := KeyOf(Q);
      && k in s.mem.done && k in s.disk.done && InSlice(IDX, k, D)
      && !Explained(IDX, OwedBy(s.mem), s.mem.done, s.now, D, k.size)
      && !Explained(IDX, OwedOn(s.disk), s.disk.done, s.saved, D, k.size)
  {
    IsRun();
    IsWithin();
    RowGone();
    Starts();
    hide Explained, Run, Initial, SortedIndex, WithinUntil;
    hide S0, S1, S2, S3, S4, S5, S6, S7, S8, S9, S10, S11, S12, S13, S14, S15, S16, S17, S18, S19;
  }

  lemma Starts()
    ensures SortedIndex(IDX) && Initial(S0()) && InSlice(IDX, KeyOf(Q), D)
  {
    PlanGood();
  }
}
