/** The CDX index as the walk asks it: sorted rows in blocks, pages that are slices of blocks, and
    the ten 1/10 subpages of a page. */
module CdxIndex {
  import opened Strings

  const PAGE := 1000

  datatype Page = Number(n: nat) | Question(domain: string)

  datatype Task = Task(sfx: string, size: nat, page: Page, first: nat, last: nat, kind: string)

  /** A task without its kind: what the done set remembers. */
  datatype Key = Key(sfx: string, size: nat, page: Page, first: nat, last: nat)

  function KeyOf(t: Task): Key {
    Key(t.sfx, t.size, t.page, t.first, t.last)
  }

  /** A page number's size is a thousand blocks or a tenth of a size; a question has size 1. */
  predicate Sized(k: Key) {
    k.size in {1, 10, 100, 1000} && (k.page.Question? ==> k.size == 1)
  }

  /** Whether the task comes from a unit's own queue, not from splitting a page. */
  predicate Root(k: Key) {
    k.page.Question? || k.size == PAGE
  }

  /** Subpage j of a page: ten times finer, the same years. */
  function Sub(k: Key, j: nat): Key
    requires k.page.Number?
  {
    k.(size := k.size / 10, page := Number(k.page.n * 10 + j))
  }

  /** The page a subpage was cut from. */
  function Parent(k: Key): Key
    requires k.page.Number?
  {
    k.(size := k.size * 10, page := Number(k.page.n / 10))
  }

  function Child(t: Task, j: nat): Task
    requires t.page.Number?
  {
    t.(size := t.size / 10, page := Number(t.page.n * 10 + j))
  }

  function Children(t: Task, js: seq<nat>): seq<Task>
    requires t.page.Number?
  {
    seq(|js|, i requires 0 <= i < |js| => Child(t, js[i]))
  }

  const ALL_TEN: seq<nat> := [9, 8, 7, 6, 5, 4, 3, 2, 1, 0]
  const PROBES: seq<nat> := [0, 5]
  const REST: seq<nat> := [1, 2, 3, 4, 6, 7, 8, 9]

  /** Tasks for tenths of t's slice in descending order, or for two of them; none below size 10, and no two of them
      but for a page of a unit. */
  function Subpages(t: Task, cut: bool): seq<Task>
    requires Sized(KeyOf(t))
  {
    if t.size < 10 || (!cut && t.size < PAGE) then []
    else Children(t, if cut then ALL_TEN else PROBES)
  }

  // ------------------------------------------------------------------ the index

  /** One row: the block it lies in and its SURT key. */
  datatype Row = Row(block: nat, urlkey: string)

  /** What one request shape sees: a suffix's domain listing, or one root-key question. */
  datatype View = Listing(sfx: string, first: nat, last: nat)
                | RootKey(domain: string, first: nat, last: nat)

  type Index = map<View, seq<Row>>

  function ViewOf(k: Key): View {
    match k.page
    case Number(_) => Listing(k.sfx, k.first, k.last)
    case Question(d) => RootKey(d, k.first, k.last)
  }

  function Rows(idx: Index, v: View): seq<Row> {
    if v in idx then idx[v] else []
  }

  ghost predicate SortedIndex(idx: Index) {
    forall v, i, j :: v in idx && 0 <= i < j < |idx[v]| ==>
      idx[v][i].block <= idx[v][j].block && !Less(idx[v][j].urlkey, idx[v][i].urlkey)
  }

  datatype RowId = RowId(v: View, i: nat)

  ghost predicate Exists(idx: Index, r: RowId) {
    r.i < |Rows(idx, r.v)|
  }

  function At(idx: Index, r: RowId): Row
    requires Exists(idx, r)
  {
    Rows(idx, r.v)[r.i]
  }

  /** Whether row r lies in the slice the key names: blocks [page * size, (page + 1) * size). */
  ghost predicate InSlice(idx: Index, k: Key, r: RowId) {
    && Exists(idx, r)
    && r.v == ViewOf(k)
    && (k.page.Number? ==> k.size > 0 && At(idx, r).block / k.size == k.page.n)
  }

  /** The slice of one of a silent page's eight unprobed subpages. */
  ghost predicate InRest(idx: Index, k: Key, r: RowId) {
    k.page.Number? && exists j: nat :: j in REST && InSlice(idx, Sub(k, j), r)
  }

  lemma DivTen(b: nat, s: nat)
    requires s in {1, 10, 100}
    ensures b / s / 10 == b / (s * 10)
  {
    if s == 1 {
    } else if s == 10 {
      assert b / 10 / 10 == b / 100;
    } else {
      assert b / 100 / 10 == b / 1000;
    }
  }

  /** The ten subpages split a page exactly, for every size the walk reaches. */
  lemma SubpagesSplit(idx: Index, k: Key, r: RowId)
    requires Sized(k) && k.size >= 10 && k.page.Number?
    ensures InSlice(idx, k, r) <==> exists j: nat :: j in ALL_TEN && InSlice(idx, Sub(k, j), r)
    ensures forall i: nat, j: nat ::
              (i in ALL_TEN && j in ALL_TEN && InSlice(idx, Sub(k, i), r) && InSlice(idx, Sub(k, j), r)) ==> i == j
  {
    if Exists(idx, r) && r.v == ViewOf(k) {
      var b, s := At(idx, r).block, k.size / 10;
      DivTen(b, s);
      assert s * 10 == k.size;
      var q := b / s;
      if q / 10 == k.page.n {
        var j := q % 10;
        assert j in ALL_TEN && Sub(k, j).page.n == q && InSlice(idx, Sub(k, j), r);
      }
      forall j: nat | j in ALL_TEN && InSlice(idx, Sub(k, j), r)
        ensures q == k.page.n * 10 + j && q / 10 == k.page.n
      {
      }
    }
  }

  /** A row of a subpage is a row of its page. */
  lemma SubInPage(idx: Index, k: Key, j: nat, r: RowId)
    requires Sized(k) && k.size >= 10 && k.page.Number? && j in ALL_TEN
    requires InSlice(idx, Sub(k, j), r)
    ensures InSlice(idx, k, r)
  {
    SubpagesSplit(idx, k, r);
  }
}
