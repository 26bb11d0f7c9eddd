/** Walk coverage: no row of a booked page is lost, in any interleaving, with any answers and any kills. */
module WalkCoverage {
  import opened Strings
  import opened CdxIndex
  import opened WalkState
  import opened WalkSystem

  // ------------------------------------------------------------------ what accounts for a row

  ghost predicate OwedFiner(idx: Index, owed: set<Task>, done: set<Key>, r: RowId, size: nat) {
    exists t :: t in owed && KeyOf(t) !in done && t.size < size && InSlice(idx, KeyOf(t), r)
  }

  ghost predicate GivenUp(idx: Index, h: History, r: RowId) {
    exists k :: k in h.skipped + h.parked && InSlice(idx, k, r)
  }

  ghost predicate Unsampled(idx: Index, h: History, r: RowId, size: nat) {
    exists k :: k in h.sampled && k !in h.unfolded && k.size <= size && InRest(idx, k, r)
  }

  /** Row r of a slice of this size is accounted for: in a journal; in a finer slice still owed; in a
      slice logged as skipped or parked; or in the other eight of a page sampled and not opened. */
  ghost predicate Accounted(idx: Index, owed: set<Task>, done: set<Key>, h: History, r: RowId, size: nat) {
    || r in h.received
    || OwedFiner(idx, owed, done, r, size)
    || GivenUp(idx, h, r)
    || Unsampled(idx, h, r, size)
  }

  ghost predicate BookedCovered(idx: Index, owed: set<Task>, done: set<Key>, h: History) {
    forall k, r :: k in done && InSlice(idx, k, r) ==> Accounted(idx, owed, done, h, r, k.size)
  }

  ghost predicate UnfoldedCovered(idx: Index, owed: set<Task>, done: set<Key>, h: History) {
    forall k, r :: k in h.unfolded && InRest(idx, k, r) ==> Accounted(idx, owed, done, h, r, k.size)
  }

  ghost predicate Covered(idx: Index, owed: set<Task>, done: set<Key>, h: History) {
    BookedCovered(idx, owed, done, h) && UnfoldedCovered(idx, owed, done, h)
  }

  /** The tasks the lane still owes: those `pending.txt` would list. */
  function OwedBy(m: Mem): set<Task> {
    set t | t in m.meta && (t in m.subq || t in m.inflight)
  }

  function OwedOn(d: Disk): set<Task> {
    set i | 0 <= i < |d.pending| :: d.pending[i].task
  }

  // ------------------------------------------------------------------ the invariant

  /** A pending subpage is one of its parent's ten, and the rows before a cut are in a journal. */
  ghost predicate GoodMeta(idx: Index, h: History, t: Task, v: Meta) {
    && Sized(KeyOf(t)) && t.page.Number? && t.size < PAGE
    && v.parent == Parent(KeyOf(t))
    && (v.role.Cut? ==> v.parent in h.unfolded)
    && (v.role.Cut? ==> forall r: RowId ::
          InSlice(idx, v.parent, r) && Less(At(idx, r).urlkey, v.stop) ==> r in h.received)
    && (v.role.Rest? ==> v.parent in h.unfolded)
  }

  ghost predicate GoodMem(idx: Index, m: Mem, h: History) {
    && m.asked.Keys == m.pages.Keys
    && (forall t :: t in m.subq || t in m.inflight ==> Sized(KeyOf(t)))
    && (forall u, t :: u in m.pages && t in m.pages[u] ==> Sized(KeyOf(t)))
    && (forall t :: t in m.meta ==> GoodMeta(idx, h, t, m.meta[t]))
    && m.probed <= h.unfolded
  }

  ghost predicate GoodDisk(idx: Index, d: Disk, h: History) {
    && (forall i :: 0 <= i < |d.pending| ==> GoodMeta(idx, h, d.pending[i].task, d.pending[i].meta))
    && Covered(idx, OwedOn(d), d.done, h)
  }

  ghost predicate Inv(idx: Index, s: Sys) {
    && SortedIndex(idx)
    && GoodMem(idx, s.mem, s.now)
    && Covered(idx, OwedBy(s.mem), s.mem.done, s.now)
    && GoodDisk(idx, s.disk, s.saved)
    && s.mem.done == s.disk.done
    && s.saved.received == s.now.received
  }

  // ------------------------------------------------------------------ general steps

  /** Tasks may leave the owed set only when each of their rows is accounted for more finely; a page
      may leave the sampled exemption only into the unfolded clause. */
  ghost predicate HandsOver(idx: Index, owed: set<Task>, done: set<Key>, h: History,
                            owed': set<Task>, h': History) {
    && (forall t, r :: t in owed && t !in owed' && KeyOf(t) !in done && InSlice(idx, KeyOf(t), r)
          ==> Accounted(idx, owed', done, h', r, t.size))
    && h.received <= h'.received && h.skipped <= h'.skipped && h.parked <= h'.parked
    && h.sampled <= h'.sampled && h.unfolded <= h'.unfolded
    && (forall k, r :: k in h'.unfolded - h.unfolded && InRest(idx, k, r)
          ==> Accounted(idx, owed', done, h', r, k.size))
  }

  lemma Coarser(idx: Index, owed: set<Task>, done: set<Key>, h: History, r: RowId, size: nat, size': nat)
    requires Accounted(idx, owed, done, h, r, size) && size <= size'
    ensures Accounted(idx, owed, done, h, r, size')
  {
  }

  lemma StillAccounted(idx: Index, owed: set<Task>, done: set<Key>, h: History,
                       owed': set<Task>, h': History, r: RowId, size: nat)
    requires HandsOver(idx, owed, done, h, owed', h')
    requires Accounted(idx, owed, done, h, r, size)
    ensures Accounted(idx, owed', done, h', r, size)
  {
    if r in h.received {
    } else if OwedFiner(idx, owed, done, r, size) {
      var t :| t in owed && KeyOf(t) !in done && t.size < size && InSlice(idx, KeyOf(t), r);
      if t !in owed' {
        Coarser(idx, owed', done, h', r, t.size, size);
      }
    } else if GivenUp(idx, h, r) {
      var k :| k in h.skipped + h.parked && InSlice(idx, k, r);
      assert k in h'.skipped + h'.parked;
    } else {
      var k :| k in h.sampled && k !in h.unfolded && k.size <= size && InRest(idx, k, r);
      if k in h'.unfolded {
        Coarser(idx, owed', done, h', r, k.size, size);
      }
    }
  }

  lemma StillCovered(idx: Index, owed: set<Task>, done: set<Key>, h: History, owed': set<Task>, h': History)
    requires Covered(idx, owed, done, h)
    requires HandsOver(idx, owed, done, h, owed', h')
    ensures Covered(idx, owed', done, h')
  {
    forall k, r | k in done && InSlice(idx, k, r)
      ensures Accounted(idx, owed', done, h', r, k.size)
    {
      StillAccounted(idx, owed, done, h, owed', h', r, k.size);
    }
    forall k, r | k in h'.unfolded && InRest(idx, k, r)
      ensures Accounted(idx, owed', done, h', r, k.size)
    {
      if k in h.unfolded {
        StillAccounted(idx, owed, done, h, owed', h', r, k.size);
      }
    }
  }

  lemma BookedStillAccounted(idx: Index, owed: set<Task>, done: set<Key>, h: History, key: Key, r: RowId, size: nat)
    requires forall q :: InSlice(idx, key, q) ==> Accounted(idx, owed, done, h, q, key.size)
    requires Accounted(idx, owed, done, h, r, size)
    ensures Accounted(idx, owed, done + {key}, h, r, size)
  {
    if OwedFiner(idx, owed, done, r, size) {
      var t :| t in owed && KeyOf(t) !in done && t.size < size && InSlice(idx, KeyOf(t), r);
      if KeyOf(t) == key {
        // another copy of the booked task: its rows are owed more finely still
        assert Accounted(idx, owed, done, h, r, key.size);
        if OwedFiner(idx, owed, done, r, key.size) {
          var u :| u in owed && KeyOf(u) !in done && u.size < key.size && InSlice(idx, KeyOf(u), r);
          assert KeyOf(u) != key;
        }
      }
    }
  }

  /** Booking a key whose rows are all accounted for more finely keeps coverage. */
  lemma BookKeyCovered(idx: Index, owed: set<Task>, done: set<Key>, h: History, key: Key)
    requires Covered(idx, owed, done, h)
    requires forall q :: InSlice(idx, key, q) ==> Accounted(idx, owed, done, h, q, key.size)
    ensures Covered(idx, owed, done + {key}, h)
  {
    forall k, r | k in done + {key} && InSlice(idx, k, r)
      ensures Accounted(idx, owed, done + {key}, h, r, k.size)
    {
      BookedStillAccounted(idx, owed, done, h, key, r, k.size);
    }
    forall k, r | k in h.unfolded && InRest(idx, k, r)
      ensures Accounted(idx, owed, done + {key}, h, r, k.size)
    {
      BookedStillAccounted(idx, owed, done, h, key, r, k.size);
    }
  }
}
