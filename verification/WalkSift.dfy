/** Two workers and restarts sift the owed subpages: what is to go is refused and booked, what is to stay is held
    by one worker while the other's failure rewrites the file, which then lists it last. */
module WalkSift {
  import opened Strings
  import opened CdxIndex
  import opened WalkState
  import opened WalkSystem
  import opened WalkCoverage
  import opened WalkRuns
  import opened WalkClean
  import opened WalkCleanRuns
  import opened WalkSafe
  import opened WalkAlone
  import opened WalkAgain

  // ------------------------------------------------------------------ a file loads as it stands

  function Loaded(ts: seq<Task>, meta: map<Task, Meta>): map<Task, Meta>
    requires forall t :: t in ts ==> t in meta
  {
    map t | t in ts :: meta[t]
  }

  lemma LoadHead(ts: seq<Task>, meta: map<Task, Meta>, done: set<Key>, m: Mem)
    requires ts != [] && forall t :: t in ts ==> t in meta
    requires KeyOf(ts[0]) !in done && ts[0] !in m.meta
    ensures LoadPending(Lines(ts, meta), done, m) ==
            LoadPending(Lines(ts[1..], meta), done,
                        m.(subq := m.subq + [ts[0]], meta := m.meta[ts[0] := meta[ts[0]]]))
  {
    assert Lines(ts, meta)[0] == Owed(ts[0], meta[ts[0]]) && Lines(ts, meta)[1..] == Lines(ts[1..], meta);
  }

  lemma LoadedOnto(ts: seq<Task>, meta: map<Task, Meta>, was: map<Task, Meta>)
    requires ts != [] && Distinct(ts) && forall t :: t in ts ==> t in meta
    ensures was[ts[0] := meta[ts[0]]] + Loaded(ts[1..], meta) == was + Loaded(ts, meta)
  {
    assert ts == [ts[0]] + ts[1..];
  }

  lemma TailDistinct(ts: seq<Task>)
    requires ts != [] && Distinct(ts)
    ensures Distinct(ts[1..]) && forall t :: t in ts[1..] ==> t in ts && t != ts[0]
  {
  }

  lemma LoadedNone(m: Mem, meta: map<Task, Meta>)
    ensures m.subq + [] == m.subq && m.meta + Loaded([], meta) == m.meta
  {
  }

  /** Lines of distinct tasks, none booked, are all loaded in order. */
  lemma {:induction false} LoadLines(ts: seq<Task>, meta: map<Task, Meta>, done: set<Key>, m: Mem)
    requires Distinct(ts) && forall t :: t in ts ==> t in meta && KeyOf(t) !in done && t !in m.meta
    ensures LoadPending(Lines(ts, meta), done, m) == m.(subq := m.subq + ts, meta := m.meta + Loaded(ts, meta))
    decreases ts, 1
  {
    if ts == [] {
      LoadedNone(m, meta);
    } else {
      LoadMore(ts, meta, done, m);
    }
  }

  lemma {:induction false} LoadMore(ts: seq<Task>, meta: map<Task, Meta>, done: set<Key>, m: Mem)
    requires ts != []
    requires Distinct(ts) && forall t :: t in ts ==> t in meta && KeyOf(t) !in done && t !in m.meta
    ensures LoadPending(Lines(ts, meta), done, m) == m.(subq := m.subq + ts, meta := m.meta + Loaded(ts, meta))
    decreases ts, 0
  {
    hide LoadPending, Lines, Loaded, Distinct, KeyOf;
    LoadHead(ts, meta, done, m);
    LoadedOnto(ts, meta, m.meta);
    TailDistinct(ts);
    LoadLines(ts[1..], meta, done, m.(subq := m.subq + [ts[0]], meta := m.meta[ts[0] := meta[ts[0]]]));
    assert m.subq + [ts[0]] + ts[1..] == m.subq + ts;
  }

  lemma LoadsAll(ts: seq<Task>, meta: map<Task, Meta>, done: set<Key>, m: Mem)
    requires Distinct(ts) && (forall t :: t in meta <==> t in ts) && (forall t :: t in ts ==> KeyOf(t) !in done)
    requires m.subq == [] && m.meta == map[]
    ensures LoadPending(Lines(ts, meta), done, m) == m.(subq := ts, meta := meta)
  {
    hide LoadPending, Lines, KeyOf, Distinct;
    LoadLines(ts, meta, done, m);
    assert m.subq + ts == ts && m.meta + Loaded(ts, meta) == meta;
  }

  lemma FileLoads(d: Disk, plan: map<Unit, seq<Task>>, ts: seq<Task>, meta: map<Task, Meta>)
    requires Distinct(ts) && (forall t :: t in meta <==> t in ts) && (forall t :: t in ts ==> KeyOf(t) !in d.done)
    requires d.pending == Lines(ts, meta) && forall t :: t in meta ==> !meta[t].role.Rest?
    ensures var m := Restart(d, plan); m == Mem(ts, meta, {}, {}, d.done, map[], m.pages, m.asked, Pace(0, 0, 0))
  {
    hide LoadPending, Lines, KeyOf, Distinct, NotDone;
    var m := Restart(d, plan);
    LoadsAll(ts, meta, d.done, Reset(m.pages, m.asked));
  }

  // ------------------------------------------------------------------ a lane that owes a queue

  function Members(ts: seq<Task>): set<Task> {
    set t | t in ts
  }

  /** A subpage not booked. */
  predicate Open(t: Task, done: set<Key>) {
    Sized(KeyOf(t)) && t.page.Number? && t.size < PAGE && KeyOf(t) !in done
  }

  /** Open subpages, no two of one key, and their metas. */
  ghost predicate OpenQueue(q: seq<Task>, meta: map<Task, Meta>, done: set<Key>) {
    && Distinct(q) && (forall t :: t in meta <==> t in q)
    && (forall t :: t in q ==> Open(t, done)) && KeysDiffer(Members(q))
  }

  /** Every start loads this queue. */
  ghost predicate Stands(d: Disk, q: seq<Task>, meta: map<Task, Meta>) {
    forall plan :: Restart(d, plan).subq == q && Restart(d, plan).meta == meta
  }

  /** Nobody at work, and the lane and its file owe this queue. */
  ghost predicate Ready(s: Sys, q: seq<Task>) {
    && s.mem.subq == q && s.mem.inflight == {} && s.crew == multiset{} && s.mem.asked.Keys == s.mem.pages.Keys
    && OpenQueue(q, s.mem.meta, s.mem.done) && s.mem.done == s.disk.done
    && Stands(s.disk, q, s.mem.meta) && s.saved.received == s.now.received
  }

  lemma LinesStand(d: Disk, q: seq<Task>, meta: map<Task, Meta>)
    requires OpenQueue(q, meta, d.done) && d.pending == Lines(q, meta)
    ensures Stands(d, q, meta)
  {
    hide LoadPending, Lines, Distinct, KeysDiffer, NotDone;
    forall plan ensures Restart(d, plan).subq == q && Restart(d, plan).meta == meta {
      var m := Restart(d, plan);
      LoadsAll(q, meta, d.done, Reset(m.pages, m.asked));
    }
  }

  // ------------------------------------------------------------------ start

  ghost function Started(s: Sys, plan: map<Unit, seq<Task>>): Sys {
    s.(mem := Restart(s.disk, plan), now := s.saved, crew := multiset{})
  }

  lemma StartGoes(w: nat, idx: Index, max: nat, s: Sys, plan: map<Unit, seq<Task>>)
    requires s.mem.asked.Keys == s.mem.pages.Keys && CleanPlan(plan)
    ensures Goes(w, idx, max, s, Kill(plan), Started(s, plan))
  {
    hide Restart;
  }

  lemma RestartIdle(d: Disk, plan: map<Unit, seq<Task>>)
    ensures var m := Restart(d, plan);
      && m.inflight == {} && m.asked.Keys == m.pages.Keys == plan.Keys && m.done == d.done
      && (forall u :: u in plan ==> m.pages[u] == NotDone(plan[u], d.done))
  {
  }

  lemma StartAgain(s: Sys, q: seq<Task>, plan: map<Unit, seq<Task>>)
    requires Ready(s, q)
    ensures Ready(Started(s, plan), q) && Started(s, plan).mem.meta == s.mem.meta
  {
    RestartIdle(s.disk, plan);
    hide Restart, OpenQueue;
  }

  // ------------------------------------------------------------------ refused and booked

  /** What a refusal does to memory: the subpage is settled and nothing is queued. */
  function Refused(m: Mem, t: Task): Mem {
    m.(inflight := m.inflight - {t}, meta := m.meta - {t}, pace := m.pace.(throttled := 0))
  }

  lemma RefusedSettles(max: nat, m: Mem, t: Task)
    requires m.asked.Keys == m.pages.Keys && Sized(KeyOf(t)) && t.size < PAGE
    ensures Settle(m, max, t, REFUSED) == Effect(Refused(m, t), Booked)
  {
    assert Subpages(t, false) == [];
    assert WithMeta(m.meta - {t}, [], SubMeta(t, REFUSED)) == m.meta - {t};
    assert [] + m.subq == m.subq;
  }

  lemma QuietAnswer(idx: Index, h: History, k: Key)
    ensures Journaled(idx, h, k, REFUSED)
  {
    assert Honest(idx, k, REFUSED, 0) && Delivered(k, 0, 0) == {};
  }

  lemma NotedReceived(h: History, m: Mem, t: Task, a: Answer, e: Effect)
    requires Sized(KeyOf(t))
    ensures Note(h, m, t, a, e).received == h.received
  {
  }

  /** An answer that books and can be listed, taken in. */
  lemma BooksWith(w: nat, idx: Index, max: nat, s: Sys, task: Task, a: Answer, m': Mem, tail: seq<Task>)
    returns (s': Sys)
    requires s.mem.asked.Keys == s.mem.pages.Keys && Asking(task) in s.crew && Sized(KeyOf(task)) && |s.crew| <= w
    requires Journaled(idx, s.now, KeyOf(task), a) && Settle(s.mem, max, task, a) == Effect(m', Booked)
    requires CanSave(m') && Tail(m', tail)
    ensures Goes(w, idx, max, s, Settles(task, a, tail), s')
    ensures s'.mem == m'.(done := m'.done + {KeyOf(task)}) && s'.crew == s.crew - multiset{Asking(task)}
    ensures s'.disk == Disk(Pending(m', tail), s.disk.done + {KeyOf(task)})
    ensures s'.now.received == s.now.received && s'.saved == s'.now
  {
    hide Settle;
    NotedReceived(s.now, s.mem, task, a, Effect(m', Booked));
    hide Note, Journaled, CanSave, Tail, Pending;
    s' := Apply(idx, max, s, Settles(task, a, tail));
  }

  /** The head of the queue with a worker. */
  ghost function Taken(s: Sys, t: Task, rest: seq<Task>): Sys {
    s.(mem := s.mem.(subq := rest, inflight := s.mem.inflight + {t}), crew := s.crew + multiset{Asking(t)})
  }

  lemma TakesHead(w: nat, idx: Index, max: nat, s: Sys, t: Task, rest: seq<Task>) returns (s': Sys)
    requires s.mem.asked.Keys == s.mem.pages.Keys && s.mem.subq == [t] + rest && KeyOf(t) !in s.mem.done
    requires |s.crew| < w
    ensures s' == Taken(s, t, rest)
    ensures Goes(w, idx, max, s, Takes([], []), s')
  {
    assert s.mem.subq[1..] == rest;
    s' := Taken(s, t, rest);
    assert |s'.crew| == |s.crew| + 1;
  }

  lemma DistinctRest<T>(t: T, rest: seq<T>)
    requires Distinct([t] + rest)
    ensures Distinct(rest) && t !in rest
  {
    var q := [t] + rest;
    assert forall i :: 0 <= i < |rest| ==> rest[i] == q[i + 1];
    assert q[0] == t;
  }

  lemma QueueRest(t: Task, rest: seq<Task>, meta: map<Task, Meta>, done: set<Key>)
    requires OpenQueue([t] + rest, meta, done)
    ensures OpenQueue(rest, meta - {t}, done + {KeyOf(t)}) && t !in rest && t in meta && Open(t, done)
    ensures forall x :: x in rest ==> x in meta
  {
    var q := [t] + rest;
    assert forall x :: x in q <==> x == t || x in rest;
    assert Members(q) == Members(rest) + {t};
    DistinctRest(t, rest);
    hide Distinct;
    forall x | x in rest ensures Open(x, done + {KeyOf(t)}) {
      assert x in Members(q) && t in Members(q);
    }
  }

  lemma Refuse(w: nat, idx: Index, max: nat, s: Sys, t: Task, rest: seq<Task>) returns (s1: Sys, s2: Sys)
    requires w > 0 && Ready(s, [t] + rest)
    ensures Goes(w, idx, max, s, Takes([], []), s1) && Goes(w, idx, max, s1, Settles(t, REFUSED, []), s2)
    ensures Ready(s2, rest) && s2.mem.meta == s.mem.meta - {t} && s2.mem.done == s.mem.done + {KeyOf(t)}
    ensures s2.now.received == s.now.received && s2.mem.pages == s.mem.pages && s2.mem.fails == s.mem.fails
  {
    QueueRest(t, rest, s.mem.meta, s.mem.done);
    hide OpenQueue, Stands, Goes;
    s1 := TakesHead(w, idx, max, s, t, rest);
    RefusedSettles(max, s1.mem, t);
    QuietAnswer(idx, s1.now, KeyOf(t));
    var m' := Refused(s1.mem, t);
    assert m'.inflight == {} && m'.meta == s.mem.meta - {t} && rest + [] == rest;
    s2 := BooksWith(w, idx, max, s1, t, REFUSED, m', []);
    assert s2.crew == multiset{};
    LinesStand(s2.disk, rest, m'.meta);
  }

  // ------------------------------------------------------------------ held back, and listed last

  lemma Rotated(h: Task, q: seq<Task>, meta: map<Task, Meta>, done: set<Key>)
    requires OpenQueue([h] + q, meta, done)
    ensures OpenQueue(q + [h], meta, done) && h !in q
  {
    assert forall t :: t in q + [h] <==> t in [h] + q;
    assert Members(q + [h]) == Members([h] + q);
    DistinctRest(h, q);
    DistinctConcat(q, [h]);
  }

  lemma HoldTwo(w: nat, idx: Index, max: nat, s: Sys, h: Task, y: Task, rest: seq<Task>) returns (s1: Sys, s2: Sys)
    requires w > 1 && Ready(s, [h, y] + rest)
    ensures Goes(w, idx, max, s, Takes([], []), s1) && Goes(w, idx, max, s1, Takes([], []), s2)
    ensures s2 == Taken(Taken(s, h, [y] + rest), y, rest)
    ensures s2.mem.inflight == {h, y} && s2.crew == multiset{Asking(h), Asking(y)} && s2.mem.meta == s.mem.meta
    ensures h != y && h in s.mem.meta && y in s.mem.meta && forall x :: x in rest ==> x in s.mem.meta
  {
    QueueTwo(h, y, rest, s.mem.meta, s.mem.done);
    assert [h, y] + rest == [h] + ([y] + rest);
    hide Ready, Goes, KeyOf, Taken;
    ReadyIdle(s, [h, y] + rest);
    s1 := TakesHead(w, idx, max, s, h, [y] + rest);
    TakenOne(s, h, [y] + rest);
    s2 := TakesHead(w, idx, max, s1, y, rest);
    TakenTwo(s, h, y, rest);
  }

  lemma TakenOne(s: Sys, h: Task, rest: seq<Task>)
    requires s.mem.inflight == {} && s.crew == multiset{}
    ensures var s1 := Taken(s, h, rest);
      && s1.mem == s.mem.(subq := rest, inflight := {h}) && s1.crew == multiset{Asking(h)} && |s1.crew| == 1
  {
  }

  lemma TakenTwo(s: Sys, h: Task, y: Task, rest: seq<Task>)
    requires s.mem.inflight == {} && s.crew == multiset{}
    ensures var s2 := Taken(Taken(s, h, [y] + rest), y, rest);
      s2.mem.inflight == {h, y} && s2.crew == multiset{Asking(h), Asking(y)} && s2.mem.meta == s.mem.meta
  {
    assert {} + {h} + {y} == {h, y};
  }

  lemma ReadyIdle(s: Sys, q: seq<Task>)
    requires Ready(s, q)
    ensures s.mem.subq == q && s.mem.inflight == {} && s.crew == multiset{} && s.mem.asked.Keys == s.mem.pages.Keys
  {
  }

  lemma QueueTwo(h: Task, y: Task, rest: seq<Task>, meta: map<Task, Meta>, done: set<Key>)
    requires OpenQueue([h, y] + rest, meta, done)
    ensures h != y && h in meta && y in meta && KeyOf(h) !in done && KeyOf(y) !in done
    ensures forall x :: x in rest ==> x in meta
  {
    assert [h, y] + rest == [h] + ([y] + rest);
    QueueRest(h, [y] + rest, meta, done);
    QueueRest(y, rest, meta - {h}, done + {KeyOf(h)});
    assert y in [y] + rest;
  }

  /** The head held by one worker, the next task failing with the other, a kill: the head is now the last. */
  lemma Rotate(w: nat, idx: Index, max: nat, s: Sys, h: Task, y: Task, rest: seq<Task>)
    returns (s1: Sys, s2: Sys, s3: Sys, s4: Sys)
    requires w > 1 && Ready(s, [h, y] + rest)
    ensures Goes(w, idx, max, s, Takes([], []), s1) && Goes(w, idx, max, s1, Takes([], []), s2)
    ensures Goes(w, idx, max, s2, AskFails(y, false, [h]), s3) && Goes(w, idx, max, s3, Kill(map[]), s4)
    ensures Ready(s4, [y] + rest + [h]) && s4.mem.meta == s.mem.meta && s4.mem.done == s.mem.done
    ensures s4.now.received == s.now.received
  {
    hide Stands, Goes, OpenQueue;
    s1, s2 := HoldTwo(w, idx, max, s, h, y, rest);
    s3 := FailsBack(w, idx, max, s2, h, y, rest);
    assert [h, y] + rest == [h] + ([y] + rest);
    Rotated(h, [y] + rest, s.mem.meta, s.mem.done);
    s4 := Started(s3, map[]);
    TurnedFile(w, idx, max, s3, [y] + rest + [h]);
  }

  lemma TurnedFile(w: nat, idx: Index, max: nat, s: Sys, q: seq<Task>)
    requires s.mem.asked.Keys == s.mem.pages.Keys && OpenQueue(q, s.mem.meta, s.disk.done)
    requires s.disk.pending == Lines(q, s.mem.meta)
    ensures Goes(w, idx, max, s, Kill(map[]), Started(s, map[]))
    ensures Ready(Started(s, map[]), q) && Started(s, map[]).mem.meta == s.mem.meta
  {
    LinesStand(s.disk, q, s.mem.meta);
    StartGoes(w, idx, max, s, map[]);
    RestartIdle(s.disk, map[]);
    StandsFor(s.disk, q, s.mem.meta, map[]);
    hide OpenQueue, Stands, Goes, Restart;
  }

  lemma StandsFor(d: Disk, q: seq<Task>, meta: map<Task, Meta>, plan: map<Unit, seq<Task>>)
    requires Stands(d, q, meta)
    ensures Restart(d, plan).subq == q && Restart(d, plan).meta == meta
  {
  }

  lemma FailsBack(w: nat, idx: Index, max: nat, s: Sys, h: Task, y: Task, rest: seq<Task>) returns (s': Sys)
    requires s.mem.asked.Keys == s.mem.pages.Keys && s.mem.subq == rest && s.mem.inflight == {h, y} && h != y
    requires s.crew == multiset{Asking(h), Asking(y)} && w > 1
    requires h in s.mem.meta && y in s.mem.meta && forall x :: x in rest ==> x in s.mem.meta
    ensures Goes(w, idx, max, s, AskFails(y, false, [h]), s')
    ensures s'.disk == Disk(Lines([y] + rest + [h], s.mem.meta), s.disk.done) && s'.mem.meta == s.mem.meta
    ensures s'.mem.asked.Keys == s'.mem.pages.Keys && s'.saved == s.now && s'.now == s.now
  {
    var m := Requeue(s.mem, y, true).mem;
    assert m.subq == [y] + rest && m.inflight == {h} && m.subq + [h] == [y] + rest + [h];
    assert Tail(m, [h]) && CanSave(m);
    s' := Apply(idx, max, s, AskFails(y, false, [h]));
    assert s'.crew == multiset{Asking(h)};
  }

  // ------------------------------------------------------------------ the queue sifted

  /** What sifting leaves: the queue's tasks that are to stay, and besides only what it booked. */
  ghost predicate Sifted(s: Sys, q: seq<Task>, keep: set<Task>, s': Sys, kept: seq<Task>) {
    && Ready(s', kept) && (forall t :: t in kept <==> t in q && t in keep)
    && (forall t :: t in kept ==> t in s.mem.meta && t in s'.mem.meta && s'.mem.meta[t] == s.mem.meta[t])
    && (forall k :: k in s'.mem.done ==> k in s.mem.done || exists t :: t in q && KeyOf(t) == k)
    && s'.now.received == s.now.received
  }

  /** The first |q| - |kept| tasks of the queue are still to be sifted. */
  lemma {:induction false} Sift(w: nat, idx: Index, max: nat, s0: Sys, s: Sys, q: seq<Task>, kept: seq<Task>,
                                keep: set<Task>) returns (s': Sys, kept': seq<Task>)
    requires w > 1 && Leads(w, idx, max, s0, s) && Ready(s, q + kept) && forall t :: t in kept ==> t in keep
    ensures Leads(w, idx, max, s0, s') && Sifted(s, q + kept, keep, s', kept')
    decreases |q|
  {
    hide Ready, Leads, Goes, Sifted;
    if q == [] {
      assert q + kept == kept;
      s', kept' := s, kept;
      SiftedNone(s, kept, keep);
    } else {
      var t, rest := q[0], q[1..];
      assert q + kept == [t] + (rest + kept);
      if t !in keep {
        var s1, s2 := Refuse(w, idx, max, s, t, rest + kept);
        LeadsOn(w, idx, max, s0, s, Takes([], []), s1);
        LeadsOn(w, idx, max, s0, s1, Settles(t, REFUSED, []), s2);
        s', kept' := Sift(w, idx, max, s0, s2, rest, kept, keep);
        SiftedLess(s, t, rest + kept, keep, s2, s', kept');
      } else if rest + kept == [] {
        s', kept' := s, [t];
        assert q + kept == [t];
        SiftedNone(s, [t], keep);
      } else {
        var more := rest + kept;
        assert [t] + more == [t, more[0]] + more[1..] && [more[0]] + more[1..] + [t] == rest + (kept + [t]);
        var s1, s2, s3, s4 := Rotate(w, idx, max, s, t, more[0], more[1..]);
        LeadsOn(w, idx, max, s0, s, Takes([], []), s1);
        LeadsOn(w, idx, max, s0, s1, Takes([], []), s2);
        LeadsOn(w, idx, max, s0, s2, AskFails(more[0], false, [t]), s3);
        LeadsOn(w, idx, max, s0, s3, Kill(map[]), s4);
        s', kept' := Sift(w, idx, max, s0, s4, rest, kept + [t], keep);
        SiftedTurned(s, q + kept, keep, s4, rest + (kept + [t]), s', kept');
      }
    }
  }

  lemma SiftedNone(s: Sys, kept: seq<Task>, keep: set<Task>)
    requires Ready(s, kept) && forall t :: t in kept ==> t in keep
    ensures Sifted(s, kept, keep, s, kept)
  {
    hide Stands, Distinct, KeysDiffer, Open;
  }

  lemma SiftedLess(s: Sys, t: Task, rest: seq<Task>, keep: set<Task>, s1: Sys, s': Sys, kept: seq<Task>)
    requires Sifted(s1, rest, keep, s', kept) && t !in keep
    requires s1.mem.meta == s.mem.meta - {t} && s1.mem.done == s.mem.done + {KeyOf(t)}
    requires s1.now.received == s.now.received
    ensures Sifted(s, [t] + rest, keep, s', kept)
  {
    hide Ready, KeyOf;
    assert forall x :: x in [t] + rest <==> x == t || x in rest;
    forall k | k in s'.mem.done ensures k in s.mem.done || exists x :: x in [t] + rest && KeyOf(x) == k {
      if k !in s1.mem.done {
        var x :| x in rest && KeyOf(x) == k;
        assert x in [t] + rest;
      } else if k !in s.mem.done {
        assert t in [t] + rest;
      }
    }
  }

  lemma SiftedTurned(s: Sys, q: seq<Task>, keep: set<Task>, s1: Sys, q1: seq<Task>, s': Sys, kept: seq<Task>)
    requires Sifted(s1, q1, keep, s', kept) && forall t :: t in q <==> t in q1
    requires s1.mem.meta == s.mem.meta && s1.mem.done == s.mem.done && s1.now.received == s.now.received
    ensures Sifted(s, q, keep, s', kept)
  {
    hide Ready, KeyOf;
    forall k | k in s'.mem.done ensures k in s.mem.done || exists x :: x in q && KeyOf(x) == k {
      if k !in s1.mem.done {
        var x :| x in q1 && KeyOf(x) == k;
        assert x in q;
      }
    }
  }

  // ------------------------------------------------------------------ refused down to one slice

  /** The slice is queued, what is held is not, and all have their metas. */
  ghost predicate Ahead(m: Mem, held: seq<Task>, task: Task) {
    && Distinct(held) && (forall t :: t in held ==> t in m.meta && t !in m.subq) && Distinct(m.subq)
    && (forall t :: t in m.subq ==> t in m.meta && Sized(KeyOf(t)) && t.size < PAGE)
    && (forall t :: t in m.subq && KeyOf(t) == KeyOf(task) ==> t == task)
    && task in m.subq && KeyOf(task) !in m.done
  }

  /** Workers hold some slices; another slice is queued. */
  ghost predicate Busy(s: Sys, held: seq<Task>, crew: multiset<Worker>, task: Task) {
    && s.mem.asked.Keys == s.mem.pages.Keys && s.mem.inflight == Members(held) && s.crew == crew
    && Ahead(s.mem, held, task)
  }

  /** One more worker holds t, and nothing queued is t. */
  ghost predicate AtHand(s: Sys, held: seq<Task>, crew: multiset<Worker>, t: Task) {
    && s.mem.asked.Keys == s.mem.pages.Keys && s.mem.inflight == Members(held) + {t} && t !in held
    && s.crew == crew + multiset{Asking(t)} && KeyOf(t) !in s.mem.done && t in s.mem.meta
    && Sized(KeyOf(t)) && t.size < PAGE && Distinct(held) && (forall x :: x in held ==> x in s.mem.meta)
    && (forall x :: x in s.mem.subq ==> x in s.mem.meta && x != t)
  }

  /** The next task not booked, up to the slice. */
  lemma {:induction false} TakeNext(m: Mem, task: Task)
    requires Distinct(m.subq) && task in m.subq && KeyOf(task) !in m.done && forall t :: t in m.subq ==> t in m.meta
    ensures var (m', next) := TakeSub(m);
      && next.Some? && next.value in m.subq && KeyOf(next.value) !in m.done && |m'.subq| < |m.subq|
      && m' == m.(subq := m'.subq, meta := m'.meta, inflight := m.inflight + {next.value})
      && Distinct(m'.subq) && (forall t :: t in m'.subq ==> t in m.subq && t != next.value)
      && (forall t :: t in m'.meta ==> t in m.meta && m'.meta[t] == m.meta[t])
      && (forall t :: t in m.meta && (t !in m.subq || t in m'.subq || t == next.value) ==> t in m'.meta)
      && (next.value == task || task in m'.subq)
    decreases |m.subq|
  {
    var t, rest := m.subq[0], m.subq[1..];
    assert m.subq == [t] + rest;
    DistinctRest(t, rest);
    if KeyOf(t) in m.done { TakeNext(m.(subq := rest, meta := m.meta - {t}), task); }
  }

  lemma NextAhead(m: Mem, held: seq<Task>, task: Task)
    requires Ahead(m, held, task)
    ensures var (m', next) := TakeSub(m);
      && next.Some? && next.value !in held && |m'.subq| < |m.subq| && KeyOf(next.value) !in m.done && Distinct(m'.subq)
      && m' == m.(subq := m'.subq, meta := m'.meta, inflight := m.inflight + {next.value})
      && (forall t :: t in m'.subq ==> t in m'.meta && t != next.value && t in m.subq) && next.value in m.subq
      && (forall t :: t in held ==> t in m'.meta) && task in m'.meta && m'.meta[task] == m.meta[task]
      && next.value in m'.meta && Sized(KeyOf(next.value)) && next.value.size < PAGE
      && (next.value != task ==> Ahead(m', held, task) && KeyOf(next.value) != KeyOf(task))
  {
    TakeNext(m, task);
    hide TakeSub, Distinct, KeyOf;
  }

  lemma TakesNext(w: nat, idx: Index, max: nat, s: Sys)
    requires s.mem.asked.Keys == s.mem.pages.Keys && TakeSub(s.mem).1.Some? && |s.crew| < w
    ensures var (m', next) := TakeSub(s.mem);
      Goes(w, idx, max, s, Takes([], []), s.(mem := m', crew := s.crew + multiset{Asking(next.value)}))
  {
    assert |s.crew + multiset{Asking(TakeSub(s.mem).1.value)}| == |s.crew| + 1;
  }

  /** Nothing is queued that was not, and the rest of the lane is as it was. */
  ghost predicate LessQueued(s: Sys, s': Sys) {
    && (forall t :: t in s'.mem.subq ==> t in s.mem.subq) && s'.mem.pages == s.mem.pages
    && s'.mem.probed == s.mem.probed && s'.mem.fails == s.mem.fails
  }

  /** What is booked besides was queued. */
  ghost predicate BooksQueued(s: Sys, s': Sys) {
    forall k :: k in s'.mem.done ==> k in s.mem.done || exists t :: t in s.mem.subq && KeyOf(t) == k
  }

  lemma NextTaken(w: nat, idx: Index, max: nat, s: Sys, held: seq<Task>, crew: multiset<Worker>, task: Task)
    returns (s1: Sys, t: Task)
    requires |crew| < w && Busy(s, held, crew, task)
    ensures Goes(w, idx, max, s, Takes([], []), s1) && s1.now == s.now && s1.mem.fails == s.mem.fails
    ensures |s1.mem.subq| < |s.mem.subq| && AtHand(s1, held, crew, t) && LessQueued(s, s1) && t in s.mem.subq
    ensures s1.mem.done == s.mem.done
    ensures task in s1.mem.meta && task in s.mem.meta && s1.mem.meta[task] == s.mem.meta[task]
    ensures t != task ==> Ahead(s1.mem, held, task) && KeyOf(t) != KeyOf(task)
    ensures Distinct(s1.mem.subq)
  {
    NextAhead(s.mem, held, task);
    TakesNext(w, idx, max, s);
    assert Distinct(held) && task in s.mem.subq && task in s.mem.meta;
    hide TakeSub, Ahead, KeyOf, Goes, Distinct;
    t := TakeSub(s.mem).1.value;
    s1 := s.(mem := TakeSub(s.mem).0, crew := s.crew + multiset{Asking(t)});
  }

  lemma RefusedAhead(m: Mem, held: seq<Task>, t: Task, task: Task)
    requires Ahead(m, held, task) && t !in m.subq && t !in held && KeyOf(t) != KeyOf(task)
    requires m.inflight == Members(held) + {t}
    ensures var m' := Refused(m, t);
      && Ahead(m'.(done := m'.done + {KeyOf(t)}), held, task) && m'.inflight == Members(held) && Tail(m', held)
      && CanSave(m') && m'.meta[task] == m.meta[task]
  {
    assert Members(held) + {t} - {t} == Members(held);
  }

  lemma NextRefused(w: nat, idx: Index, max: nat, s: Sys, held: seq<Task>, crew: multiset<Worker>, t: Task, task: Task)
    returns (s': Sys)
    requires |crew| < w && AtHand(s, held, crew, t) && Ahead(s.mem, held, task) && KeyOf(t) != KeyOf(task)
    ensures Goes(w, idx, max, s, Settles(t, REFUSED, held), s') && Busy(s', held, crew, task)
    ensures s'.mem.subq == s.mem.subq && s'.now.received == s.now.received && s'.mem.fails == s.mem.fails
    ensures task in s'.mem.meta && task in s.mem.meta && s'.mem.meta[task] == s.mem.meta[task]
    ensures LessQueued(s, s') && s'.mem.done == s.mem.done + {KeyOf(t)}
  {
    RefusedSettles(max, s.mem, t);
    QuietAnswer(idx, s.now, KeyOf(t));
    RefusedAhead(s.mem, held, t, task);
    assert task in s.mem.meta && task in Refused(s.mem, t).meta;
    hide Ahead, Goes, Tail, CanSave;
    assert |s.crew| == |crew| + 1;
    s' := BooksWith(w, idx, max, s, t, REFUSED, Refused(s.mem, t), held);
    assert s'.crew == crew;
  }

  lemma BusyKeys(s: Sys, held: seq<Task>, crew: multiset<Worker>, task: Task)
    requires Busy(s, held, crew, task)
    ensures forall t :: t in s.mem.subq && t != task ==> KeyOf(t) != KeyOf(task)
  {
  }

  /** Steps of one life that settle no such slice. */
  ghost predicate Sparing(steps: seq<Step>, k: Key) {
    forall i :: 0 <= i < |steps| ==>
      && !steps[i].Kill? && !steps[i].KillInSettle? && (steps[i].Settles? ==> KeyOf(steps[i].task) != k)
  }

  /** More such steps. */
  ghost predicate Extends(steps: seq<Step>, steps': seq<Step>, k: Key) {
    |steps| <= |steps'| && steps'[..|steps|] == steps && Sparing(steps'[|steps|..], k)
  }

  lemma ExtendsOn(steps: seq<Step>, steps': seq<Step>, k: Key, step: Step)
    requires Extends(steps, steps', k) && Sparing([step], k)
    ensures Extends(steps, steps' + [step], k)
  {
    var more := steps' + [step];
    assert more[..|steps|] == steps'[..|steps|] && more[|steps|..] == steps'[|steps|..] + [step];
    assert [step][0] == step;
  }

  lemma ExtendsHere(steps: seq<Step>, k: Key)
    ensures Extends(steps, steps, k)
  {
  }

  /** The queue refused, one slice after the other, down to the one. */
  lemma {:induction false} RefuseUntil(w: nat, idx: Index, max: nat, s0: Sys, from: seq<Step>, s: Sys, steps: seq<Step>,
                                       held: seq<Task>, crew: multiset<Worker>, task: Task, k: Key)
    returns (s': Sys, steps': seq<Step>)
    requires |crew| < w && LeadsBy(w, idx, max, s0, s, steps) && Busy(s, held, crew, task)
    requires Extends(from, steps, k) && forall t :: t in s.mem.subq && t != task ==> KeyOf(t) != k
    ensures LeadsBy(w, idx, max, s0, s', steps') && AtHand(s', held, crew, task) && Extends(from, steps', k)
    ensures s'.now.received == s.now.received && LessQueued(s, s') && BooksQueued(s, s') && Distinct(s'.mem.subq)
    ensures task in s.mem.meta && s'.mem.meta[task] == s.mem.meta[task]
    decreases |s.mem.subq|
  {
    var s1, t := NextTaken(w, idx, max, s, held, crew, task);
    hide Busy, AtHand, LeadsBy, Goes, Ahead, Extends, KeyOf;
    LeadsByOn(w, idx, max, s0, s, steps, Takes([], []), s1);
    steps' := steps + [Takes([], [])];
    ExtendsOn(from, steps, k, Takes([], []));
    if t == task {
      s' := s1;
      SameBooks(s, s1);
    } else {
      var s2 := NextRefused(w, idx, max, s1, held, crew, t, task);
      LeadsByOn(w, idx, max, s0, s1, steps', Settles(t, REFUSED, held), s2);
      ExtendsOn(from, steps', k, Settles(t, REFUSED, held));
      steps' := steps' + [Settles(t, REFUSED, held)];
      s', steps' := RefuseUntil(w, idx, max, s0, from, s2, steps', held, crew, task, k);
      MoreBooks(s, s1, t, s2, s');
    }
  }

  lemma SameBooks(s: Sys, s': Sys)
    requires s'.mem.done == s.mem.done
    ensures BooksQueued(s, s')
  {
  }

  lemma MoreBooks(s: Sys, s1: Sys, t: Task, s2: Sys, s': Sys)
    requires t in s.mem.subq && s1.mem.done == s.mem.done && s2.mem.done == s1.mem.done + {KeyOf(t)}
    requires LessQueued(s, s1) && LessQueued(s1, s2) && BooksQueued(s2, s')
    ensures BooksQueued(s, s')
  {
    hide KeyOf;
  }
}
