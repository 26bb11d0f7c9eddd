/** What one booked answer does to coverage. */
module WalkSettle {
  import opened Strings
  import opened CdxIndex
  import opened WalkState
  import opened WalkSystem
  import opened WalkCoverage

  lemma EarlierBlock(b: nat, c: nat, size: nat)
    requires size in {1, 10, 100} && b / size < c / size
    ensures b < c
  {
    if size == 1 {} else if size == 10 {} else {}
  }

  lemma SameParent(k: Key, l: Key)
    requires Sized(k) && Sized(l) && k.page.Number? && l.page.Number? && k.size < PAGE && l.size < PAGE
    requires Parent(k) == Parent(l)
    ensures k.size == l.size && ViewOf(k) == ViewOf(l) && k == Sub(Parent(l), k.page.n % 10)
    ensures k.page.n % 10 in ALL_TEN && Sized(Parent(l)) && Parent(l).size >= 10
  {
  }

  /** A lower sibling pruned by a cut subpage holds only rows before the cut row: all are in a journal. */
  lemma PrunedRowsReceived(idx: Index, h: History, task: Task, v: Meta, t: Task, w: Meta, a: Answer, r: RowId)
    requires SortedIndex(idx)
    requires GoodMeta(idx, h, task, v) && GoodMeta(idx, h, t, w)
    requires v.role.Cut? && a.edge.Some? && Less(a.edge.value.first, v.stop)
    requires w.parent == v.parent && t.page.n < task.page.n
    requires exists lo: nat :: Honest(idx, KeyOf(task), a, lo)
    requires InSlice(idx, KeyOf(t), r)
    ensures r in h.received
  {
    var lo: nat :| Honest(idx, KeyOf(task), a, lo);
    var q := RowId(ViewOf(KeyOf(task)), lo);
    SameParent(KeyOf(t), KeyOf(task));
    SubInPage(idx, v.parent, t.page.n % 10, r);
    EarlierBlock(At(idx, r).block, At(idx, q).block, t.size);
    assert r.i < lo;
    LessTransitive(At(idx, r).urlkey, a.edge.value.first, v.stop);
  }

  /** The lane, the answer and the books before and after one settled answer. */
  ghost predicate Settling(idx: Index, m: Mem, h: History, task: Task, a: Answer) {
    && SortedIndex(idx) && GoodMem(idx, m, h) && Covered(idx, OwedBy(m), m.done, h)
    && Sized(KeyOf(task)) && Journaled(idx, h, KeyOf(task), a)
    && Answered(m, task, a) && !PruneRaises(m, task, a)
  }

  ghost function After(m: Mem, h: History, task: Task, a: Answer): History
    requires Sized(KeyOf(task)) && !PruneRaises(m, task, a)
  {
    Note(h, m, task, a, Effect(Split(m, task, a), Booked))
  }

  ghost predicate Gone(m: Mem, task: Task, a: Answer, t: Task) {
    t == task || (t in m.meta && Prunes(m, task, a) && LowerSibling(m.meta, m.meta[task].parent, task, t))
  }

  lemma RestOfParent(task: Task, j: nat)
    requires Sized(KeyOf(task)) && task.page.Number? && task.size < PAGE && j in REST
    ensures exists t :: t in RestOf(task) && KeyOf(t) == Sub(Parent(KeyOf(task)), j)
  {
    var i :| 0 <= i < |REST| && REST[i] == j;
    assert KeyOf(RestOf(task)[i]) == Sub(Parent(KeyOf(task)), j);
  }

  lemma RestGoodMeta(idx: Index, h: History, task: Task, v: Meta, t: Task)
    requires GoodMeta(idx, h, task, v) && t in RestOf(task)
    requires v.parent in h.unfolded
    ensures GoodMeta(idx, h, t, Meta(Rest, v.parent, ""))
  {
    var i :| 0 <= i < |REST| && t == RestOf(task)[i];
    assert t.page.n / 10 == task.page.n / 10;
  }

  lemma SubpageOf(task: Task, cut: bool, t: Task)
    requires Sized(KeyOf(task)) && t in Subpages(task, cut)
    ensures task.page.Number? && task.size >= 10 && t.page.Number? && Parent(KeyOf(t)) == KeyOf(task)
    ensures Sized(KeyOf(t)) && t.size < PAGE && t.kind == task.kind
    ensures exists j: nat :: j in ALL_TEN && t == Child(task, j)
  {
    var js := if cut then ALL_TEN else PROBES;
    var i :| 0 <= i < |js| && t == Child(task, js[i]);
    assert js[i] in ALL_TEN;
  }

  lemma SubpageFor(task: Task, cut: bool, j: nat)
    requires Sized(KeyOf(task)) && task.page.Number? && task.size >= 10
    requires if cut then j in ALL_TEN else task.size == PAGE && j in PROBES
    ensures Child(task, j) in Subpages(task, cut)
  {
    var js := if cut then ALL_TEN else PROBES;
    var i :| 0 <= i < |js| && js[i] == j;
    assert Subpages(task, cut)[i] == Child(task, j);
  }

  /** Where the metas after the answer come from: its subpages, the opened siblings, or before. */
  lemma SplitMetaIs(m: Mem, task: Task, a: Answer, t: Task)
    requires Sized(KeyOf(task)) && !PruneRaises(m, task, a) && t in Split(m, task, a).meta
    ensures var v := Split(m, task, a).meta[t];
      if !Whole(a) && t in Subpages(task, a.edge.Some?) then v == SubMeta(task, a)
      else if Opens(m, task, a) && t in RestOf(task) then v == Meta(Rest, m.meta[task].parent, "")
      else t in m.meta && v == m.meta[t]
  {
  }

  /** Every meta after the answer is good. */
  lemma SplitGoodMetas(idx: Index, m: Mem, h: History, task: Task, a: Answer, t: Task)
    requires Settling(idx, m, h, task, a) && t in Split(m, task, a).meta
    ensures GoodMeta(idx, After(m, h, task, a), t, Split(m, task, a).meta[t])
  {
    hide Covered, Honest, Less, Split, Subpages, RestOf, PruneRaises;
    var h' := After(m, h, task, a);
    SplitMetaIs(m, task, a, t);
    if !Whole(a) && t in Subpages(task, a.edge.Some?) {
      SubpageOf(task, a.edge.Some?, t);
      CutRowsReceived(idx, h, task, a);
    } else if Opens(m, task, a) && t in RestOf(task) {
      RestGoodMeta(idx, h', task, m.meta[task], t);
    }
  }

  lemma SplitSized(idx: Index, m: Mem, h: History, task: Task, a: Answer, t: Task)
    requires Settling(idx, m, h, task, a)
    requires t in Split(m, task, a).subq || t in Split(m, task, a).inflight
    ensures Sized(KeyOf(t))
  {
    if !Whole(a) && t in Subpages(task, a.edge.Some?) {
      SubpageOf(task, a.edge.Some?, t);
    } else if Opens(m, task, a) && t in RestOf(task) {
      RestGoodMeta(idx, After(m, h, task, a), task, m.meta[task], t);
    } else {
      assert t in m.subq || t in m.inflight;
    }
  }

  lemma SplitGoodMem(idx: Index, m: Mem, h: History, task: Task, a: Answer)
    requires Settling(idx, m, h, task, a)
    ensures GoodMem(idx, Split(m, task, a), After(m, h, task, a))
  {
    var m', h' := Split(m, task, a), After(m, h, task, a);
    forall t | t in m'.meta ensures GoodMeta(idx, h', t, m'.meta[t]) {
      SplitGoodMetas(idx, m, h, task, a, t);
    }
    forall t | t in m'.subq || t in m'.inflight ensures Sized(KeyOf(t)) {
      SplitSized(idx, m, h, task, a, t);
    }
  }

  /** The rows of a cut page before its last row are all in a journal. */
  lemma CutRowsReceived(idx: Index, h: History, task: Task, a: Answer)
    requires SortedIndex(idx) && Journaled(idx, h, KeyOf(task), a)
    ensures a.edge.Some? ==> forall r: RowId ::
              InSlice(idx, KeyOf(task), r) && Less(At(idx, r).urlkey, a.edge.value.last) ==> r in h.received
  {
    if a.edge.Some? {
      var lo: nat :| Honest(idx, KeyOf(task), a, lo) && Delivered(KeyOf(task), lo, a.rows) <= h.received;
      var last := RowId(ViewOf(KeyOf(task)), lo + a.rows - 1);
      forall r: RowId | InSlice(idx, KeyOf(task), r) && Less(At(idx, r).urlkey, a.edge.value.last)
        ensures r in h.received
      {
        LessTotal(a.edge.value.last, a.edge.value.last);
        assert r.i <= last.i;
        assert r in Delivered(KeyOf(task), lo, a.rows);
      }
    }
  }

  /** Who is owed afterwards: everyone owed before but the settled task and the pruned siblings, and
      the new subpages. */
  lemma SplitOwed(m: Mem, task: Task, a: Answer)
    requires Sized(KeyOf(task)) && !PruneRaises(m, task, a)
    ensures forall t :: t in OwedBy(m) && !Gone(m, task, a, t) ==> t in OwedBy(Split(m, task, a))
    ensures !Whole(a) ==> forall t :: t in Subpages(task, a.edge.Some?) ==> t in OwedBy(Split(m, task, a))
    ensures Opens(m, task, a) ==> forall t :: t in RestOf(task) ==> t in OwedBy(Split(m, task, a))
  {
    var m1 := Pruned(m, task, a);
    var m2 := OpenRest(m, task, a);
    forall t | t in OwedBy(m) && !Gone(m, task, a, t) ensures t in OwedBy(m1) {
      assert t in m1.meta;
    }
    assert forall t :: t in OwedBy(m1) ==> t in m2.meta && (t in m2.subq || t in m2.inflight);
  }

  ghost function OwedAfter(m: Mem, task: Task, a: Answer): set<Task>
    requires Sized(KeyOf(task)) && !PruneRaises(m, task, a)
  {
    OwedBy(Split(m, task, a))
  }

  lemma OwedStillAccounted(idx: Index, m: Mem, h: History, task: Task, a: Answer, t: Task, r: RowId, size: nat)
    requires Settling(idx, m, h, task, a)
    requires t in OwedBy(m) && t != task && KeyOf(t) !in m.done && t.size < size && InSlice(idx, KeyOf(t), r)
    ensures Accounted(idx, OwedAfter(m, task, a), m.done, After(m, h, task, a), r, size)
  {
    SplitOwed(m, task, a);
    if Gone(m, task, a, t) {
      PrunedRowsReceived(idx, h, task, m.meta[task], t, m.meta[t], a, r);
    }
  }

  /** The answer queues all ten subpages. */
  ghost predicate Cuts(task: Task, a: Answer)
    requires Sized(KeyOf(task))
  {
    !Whole(a) && a.edge.Some? && Subpages(task, true) != []
  }

  /** What accounted for a row as finely as this still does, but for the other eight of the page now cut. */
  lemma FinerStillAccounted(idx: Index, m: Mem, h: History, task: Task, a: Answer, r: RowId, size: nat)
    requires Settling(idx, m, h, task, a)
    requires size <= task.size && Accounted(idx, OwedBy(m), m.done, h, r, size)
    requires !(Cuts(task, a) && size == task.size && InRest(idx, KeyOf(task), r))
    ensures Accounted(idx, OwedAfter(m, task, a), m.done, After(m, h, task, a), r, size)
  {
    if r in h.received {
    } else if OwedFiner(idx, OwedBy(m), m.done, r, size) {
      var t :| t in OwedBy(m) && KeyOf(t) !in m.done && t.size < size && InSlice(idx, KeyOf(t), r);
      OwedStillAccounted(idx, m, h, task, a, t, r, size);
    } else {
      ExemptStillAccounted(idx, m, h, task, a, r, size);
    }
  }

  lemma ExemptStillAccounted(idx: Index, m: Mem, h: History, task: Task, a: Answer, r: RowId, size: nat)
    requires Settling(idx, m, h, task, a)
    requires size <= task.size && (GivenUp(idx, h, r) || Unsampled(idx, h, r, size))
    requires !(Cuts(task, a) && size == task.size && InRest(idx, KeyOf(task), r))
    ensures var h' := After(m, h, task, a); GivenUp(idx, h', r) || Unsampled(idx, h', r, size)
  {
    var h' := After(m, h, task, a);
    if GivenUp(idx, h, r) {
      var k :| k in h.skipped + h.parked && InSlice(idx, k, r);
      assert k in h'.skipped + h'.parked;
    } else {
      var k :| k in h.sampled && k !in h.unfolded && k.size <= size && InRest(idx, k, r);
      assert Opens(m, task, a) ==> m.meta[task].parent.size > size;
    }
  }

  /** A row of one of the ten subpages of a cut page. */
  lemma CutAccounted(idx: Index, m: Mem, h: History, task: Task, a: Answer, j: nat, r: RowId)
    requires Settling(idx, m, h, task, a) && Cuts(task, a) && task.page.Number? && j in ALL_TEN
    requires InSlice(idx, Sub(KeyOf(task), j), r)
    ensures Accounted(idx, OwedAfter(m, task, a), m.done, After(m, h, task, a), r, task.size)
  {
    var t := Child(task, j);
    SubpageFor(task, true, j);
    SplitOwed(m, task, a);
    if KeyOf(t) in m.done {
      assert Accounted(idx, OwedBy(m), m.done, h, r, t.size);
      FinerStillAccounted(idx, m, h, task, a, r, t.size);
      Coarser(idx, OwedAfter(m, task, a), m.done, After(m, h, task, a), r, t.size, task.size);
    }
  }

  /** What accounted for a row as finely as the settled task's own size still does: the other eight of a page now
      cut are among its ten. */
  lemma FineStillAccounted(idx: Index, m: Mem, h: History, task: Task, a: Answer, r: RowId, size: nat)
    requires Settling(idx, m, h, task, a)
    requires size <= task.size && Accounted(idx, OwedBy(m), m.done, h, r, size)
    ensures Accounted(idx, OwedAfter(m, task, a), m.done, After(m, h, task, a), r, size)
  {
    if Cuts(task, a) && size == task.size && InRest(idx, KeyOf(task), r) {
      var j: nat :| j in REST && InSlice(idx, Sub(KeyOf(task), j), r);
      assert j in ALL_TEN;
      CutAccounted(idx, m, h, task, a, j, r);
    } else {
      FinerStillAccounted(idx, m, h, task, a, r, size);
    }
  }

  /** A row of a subpage that is owed afterwards, unless booked before, is accounted for. */
  lemma ChildAccounted(idx: Index, m: Mem, h: History, task: Task, a: Answer, t: Task, r: RowId, size: nat)
    requires Settling(idx, m, h, task, a)
    requires t in OwedAfter(m, task, a) && t.size <= task.size && t.size < size
    requires InSlice(idx, KeyOf(t), r)
    ensures Accounted(idx, OwedAfter(m, task, a), m.done, After(m, h, task, a), r, size)
  {
    if KeyOf(t) in m.done {
      assert Accounted(idx, OwedBy(m), m.done, h, r, t.size);
      FineStillAccounted(idx, m, h, task, a, r, t.size);
      Coarser(idx, OwedAfter(m, task, a), m.done, After(m, h, task, a), r, t.size, size);
    }
  }

  /** Each row of the settled slice is in a journal, owed more finely, given up, or unsampled. */
  lemma SliceAccounted(idx: Index, m: Mem, h: History, task: Task, a: Answer, r: RowId)
    requires Settling(idx, m, h, task, a)
    requires InSlice(idx, KeyOf(task), r)
    ensures Accounted(idx, OwedAfter(m, task, a), m.done, After(m, h, task, a), r, task.size)
  {
    var key, h', cut := KeyOf(task), After(m, h, task, a), a.edge.Some?;
    if Whole(a) {
      var lo: nat :| Honest(idx, key, a, lo) && Delivered(key, lo, a.rows) <= h.received;
      assert r in Delivered(key, lo, a.rows);
    } else if Subpages(task, cut) == [] {
      assert key in h'.skipped;
    } else {
      SubpagesSplit(idx, key, r);
      var j: nat :| j in ALL_TEN && InSlice(idx, Sub(key, j), r);
      if cut || j in PROBES {
        SubpageFor(task, cut, j);
        SplitOwed(m, task, a);
        ChildAccounted(idx, m, h, task, a, Child(task, j), r, task.size);
      } else {
        assert j in REST && InRest(idx, key, r) && key in h'.sampled;
        if key in h.unfolded {
          FineStillAccounted(idx, m, h, task, a, r, task.size);
        } else {
          assert key !in h'.unfolded;
        }
      }
    }
  }

  /** Each row of the eight siblings a probe opens is accounted for. */
  lemma RestAccounted(idx: Index, m: Mem, h: History, task: Task, a: Answer, r: RowId)
    requires Settling(idx, m, h, task, a) && Opens(m, task, a)
    requires InRest(idx, m.meta[task].parent, r)
    ensures Accounted(idx, OwedAfter(m, task, a), m.done, After(m, h, task, a), r, m.meta[task].parent.size)
  {
    var parent := m.meta[task].parent;
    var j: nat :| j in REST && InSlice(idx, Sub(parent, j), r);
    RestOfParent(task, j);
    var t :| t in RestOf(task) && KeyOf(t) == Sub(parent, j);
    SplitOwed(m, task, a);
    ChildAccounted(idx, m, h, task, a, t, r, parent.size);
  }

  /** Taking an answer in keeps coverage of the keys booked so far, and covers the settled slice. */
  lemma SplitCovered(idx: Index, m: Mem, h: History, task: Task, a: Answer)
    requires Settling(idx, m, h, task, a)
    ensures Covered(idx, OwedAfter(m, task, a), m.done, After(m, h, task, a))
    ensures forall r :: InSlice(idx, KeyOf(task), r) ==>
              Accounted(idx, OwedAfter(m, task, a), m.done, After(m, h, task, a), r, task.size)
  {
    var owed', h' := OwedAfter(m, task, a), After(m, h, task, a);
    forall r | InSlice(idx, KeyOf(task), r) ensures Accounted(idx, owed', m.done, h', r, task.size) {
      SliceAccounted(idx, m, h, task, a, r);
    }
    forall t, r | t in OwedBy(m) && t !in owed' && KeyOf(t) !in m.done && InSlice(idx, KeyOf(t), r)
      ensures Accounted(idx, owed', m.done, h', r, t.size)
    {
      SplitOwed(m, task, a);
      if t != task {
        PrunedRowsReceived(idx, h, task, m.meta[task], t, m.meta[t], a, r);
      }
    }
    forall k, r | k in h'.unfolded - h.unfolded && InRest(idx, k, r)
      ensures Accounted(idx, owed', m.done, h', r, k.size)
    {
      if k == KeyOf(task) {
        assert Cuts(task, a) || Opens(m, task, a);
        var j: nat :| j in REST && InSlice(idx, Sub(k, j), r);
        SubInPage(idx, k, j, r);
      } else {
        RestAccounted(idx, m, h, task, a, r);
      }
    }
    StillCovered(idx, OwedBy(m), m.done, h, owed', h');
  }
}
