/** A remote file read in cached blocks by range requests. */
module RangeFile {
  import opened Strings

  type Bytes = seq<bv8>

  const TRIES := 6
  const BLOCK := 0x10_0000

  // ------------------------------------------------------------------ one range, over several tries

  /** How one try ended: robots refused the hop, nothing usable came, an error status, or a body that may
      break off. */
  datatype Try = Barred | Nothing | Failed(code: nat) | Body(code: nat, data: Bytes, broken: bool)

  /** The answer to a try, by its number and the range it asks. */
  type Server = (nat, int, int) -> Try

  /** A 206 is for a range inside the artifact, and its body is bytes of that range from its start. */
  ghost predicate Honest(artifact: Bytes, serve: Server) {
    forall n: nat, a: int, b: int :: var t := serve(n, a, b);
      t.Body? && t.code == 206 ==> 0 <= a <= b < |artifact| && t.data <= artifact[a..b + 1]
  }

  /** Bytes first to last, keeping what a broken try brought and asking for the rest. */
  function Gotten(serve: Server, first: int, last: int, n: nat, body: Bytes): Option<Bytes>
    decreases TRIES + 1 - n
  {
    if n > TRIES then None
    else
      match serve(n, first + |body|, last)
      case Barred => None
      case Nothing => Gotten(serve, first, last, n + 1, body)
      case Failed(code) => if code == 429 || code >= 500 then Gotten(serve, first, last, n + 1, body) else None
      case Body(code, data, broken) =>
        if code != 206 then None
        else if broken then Gotten(serve, first, last, n + 1, body + data)
        else Some(body + data)
  }

  method Get(serve: Server, first: int, last: int) returns (r: Option<Bytes>)
    ensures r == Gotten(serve, first, last, 1, [])
  {
    var body: Bytes, n := [], 1;
    while n <= TRIES
      invariant 1 <= n <= TRIES + 1
      invariant Gotten(serve, first, last, n, body) == Gotten(serve, first, last, 1, [])
    {
      match serve(n, first + |body|, last) {
        case Barred => return None;
        case Nothing =>
        case Failed(code) =>
          if code != 429 && code < 500 { return None; }
        case Body(code, data, broken) =>
          if code != 206 { return None; }
          body := body + data;
          if !broken { return Some(body); }
      }
      n := n + 1;
    }
    r := None;
  }

  /** Whatever breaks, what comes back is the asked bytes from their start. */
  lemma {:induction false} GottenIsPrefix(artifact: Bytes, serve: Server, first: int, last: int, n: nat, body: Bytes)
    requires Honest(artifact, serve)
    requires 0 <= first <= last < |artifact| && body <= artifact[first..last + 1]
    ensures var r := Gotten(serve, first, last, n, body); r.Some? ==> r.value <= artifact[first..last + 1]
    decreases TRIES + 1 - n
  {
    if n <= TRIES {
      var t := serve(n, first + |body|, last);
      if t.Body? && t.code == 206 {
        var rest := artifact[first + |body|..last + 1];
        assert t.data <= rest && artifact[first..last + 1] == body + rest;
        GottenIsPrefix(artifact, serve, first, last, n + 1, body + t.data);
      } else {
        GottenIsPrefix(artifact, serve, first, last, n + 1, body);
      }
    }
  }

  /** Nothing came that ends the tries, but another may bring more: nothing usable, a throttle, a server's error, or a
      body of the range that breaks off. */
  predicate Again(t: Try) {
    || t.Nothing? || (t.Failed? && (t.code == 429 || t.code >= 500)) || (t.Body? && t.code == 206 && t.broken)
  }

  /** The bytes that the first k tries brought. */
  function Brought(serve: Server, first: int, last: int, k: nat): Bytes {
    if k == 0 then []
    else
      var before := Brought(serve, first, last, k - 1);
      var t := serve(k, first + |before|, last);
      before + if t.Body? && t.code == 206 then t.data else []
  }

  /** The k-th try asks for what the tries before it have not brought. */
  function TryAt(serve: Server, first: int, last: int, k: nat): Try
    requires k > 0
  {
    serve(k, first + |Brought(serve, first, last, k - 1)|, last)
  }

  /** The k-th try is the first that brings a body of the range to its end. */
  ghost predicate EndsAt(serve: Server, first: int, last: int, k: nat) {
    && 1 <= k <= 6 && (forall j :: 1 <= j < k ==> Again(TryAt(serve, first, last, j)))
    && var t := TryAt(serve, first, last, k);
       t.Body? && t.code == 206 && !t.broken
  }

  lemma {:induction false} GottenFrom(serve: Server, first: int, last: int, n: nat)
    requires 1 <= n <= 7 && forall j :: 1 <= j < n ==> Again(TryAt(serve, first, last, j))
    ensures var r := Gotten(serve, first, last, n, Brought(serve, first, last, n - 1));
      && (forall k: nat :: k >= n && EndsAt(serve, first, last, k) ==> r == Some(Brought(serve, first, last, k)))
      && (r.Some? ==> exists k: nat :: EndsAt(serve, first, last, k))
    decreases 7 - n
  {
    if n <= 6 {
      var body, t := Brought(serve, first, last, n - 1), TryAt(serve, first, last, n);
      assert body + [] == body;
      if Again(t) {
        GottenFrom(serve, first, last, n + 1);
      } else {
        assert t.Body? && t.code == 206 && !t.broken ==> EndsAt(serve, first, last, n);
      }
    }
  }

  /** The tries give bytes if and only if one of the first six brings a body of the range to its end and all before it
      may be tried again; then they give what all of these brought. */
  lemma GottenExactly(serve: Server, first: int, last: int, body: Bytes)
    ensures Gotten(serve, first, last, 1, []) == Some(body) <==>
      exists k: nat :: EndsAt(serve, first, last, k) && body == Brought(serve, first, last, k)
  {
    GottenFrom(serve, first, last, 1);
    assert Brought(serve, first, last, 0) == [];
    hide Gotten;
  }

  /** A range outside the artifact is never served. */
  lemma {:induction false} OutsideIsNone(artifact: Bytes, serve: Server, first: int, last: int, n: nat)
    requires Honest(artifact, serve) && !(0 <= first <= last < |artifact|)
    ensures Gotten(serve, first, last, n, []).None?
    decreases TRIES + 1 - n
  {
    if n <= TRIES { OutsideIsNone(artifact, serve, first, last, n + 1); }
  }

  // ------------------------------------------------------------------ blocks

  function Min(a: int, b: int): int {
    if a < b then a else b
  }

  /** The last byte of block i. */
  function Last(size: nat, i: int): int {
    Min(size, i * BLOCK + BLOCK) - 1
  }

  function Fetched(size: nat, serve: Server, i: int): Option<Bytes> {
    Gotten(serve, i * BLOCK, Last(size, i), 1, [])
  }

  /** Block i is MiB i of the artifact, the last one up to its end, and is asked for as one span. */
  lemma BlockExactly(size: nat, serve: Server, i: nat)
    ensures Fetched(size, serve, i) ==
      Gotten(serve, i * 0x10_0000,
             if i * 0x10_0000 + 0x10_0000 <= size then i * 0x10_0000 + 0xf_ffff else size - 1, 1, [])
  {
    hide Gotten;
  }

  /** A cached block holds the artifact's bytes from the block's start, perhaps not all of them. */
  ghost predicate Genuine(artifact: Bytes, i: int, data: Bytes) {
    0 <= i && i * BLOCK < |artifact| && data <= artifact[i * BLOCK..Last(|artifact|, i) + 1]
  }

  lemma FetchedIsGenuine(artifact: Bytes, serve: Server, i: int)
    requires Honest(artifact, serve)
    ensures var r := Fetched(|artifact|, serve, i); r.Some? ==> Genuine(artifact, i, r.value)
  {
    var first, last := i * BLOCK, Last(|artifact|, i);
    if 0 <= first <= last < |artifact| {
      GottenIsPrefix(artifact, serve, first, last, 1, []);
    } else {
      OutsideIsNone(artifact, serve, first, last, 1);
    }
  }

  /** Where a read of n bytes from pos ends. */
  function End(size: nat, pos: int, n: int): int {
    if n < 0 then size else Min(size, pos + n)
  }

  /** The bytes of the plain file from pos up to end. */
  function Plain(artifact: Bytes, pos: int, end: int): Bytes
    requires end <= |artifact|
  {
    if 0 <= pos < end then artifact[pos..end] else []
  }

  /** A read of n bytes gives n, or what is left; one of a negative number gives all that is left. */
  lemma PlainExactly(artifact: Bytes, pos: nat, n: int)
    ensures var r := Plain(artifact, pos, End(|artifact|, pos, n));
      && |r| == (if pos >= |artifact| then 0 else if n < 0 || pos + n > |artifact| then |artifact| - pos else n)
      && forall i :: 0 <= i < |r| ==> pos + i < |artifact| && r[i] == artifact[pos + i]
  {
  }

  /** Block i is cached whole. */
  predicate Whole(size: nat, blocks: map<int, Bytes>, i: int) {
    i in blocks && |blocks[i]| >= Last(size, i) + 1 - i * BLOCK
  }

  /** Every block of a read is cached whole. */
  ghost predicate AllWhole(size: nat, blocks: map<int, Bytes>, pos: int, end: int) {
    forall i :: pos / BLOCK <= i <= (end - 1) / BLOCK ==> Whole(size, blocks, i)
  }

  /** A piece of a genuine block is the artifact's bytes at its place. */
  lemma PieceOf(artifact: Bytes, i: int, data: Bytes, pos: int, k: nat)
    requires Genuine(artifact, i, data) && i * BLOCK <= pos && pos - i * BLOCK + k <= |data|
    ensures 0 <= pos && pos + k <= |artifact| && data[pos - i * BLOCK..pos - i * BLOCK + k] == artifact[pos..pos + k]
  {
    var first := i * BLOCK;
    var block := artifact[first..Last(|artifact|, i) + 1];
    assert data == block[..|data|];
    assert forall j :: 0 <= j < |data| ==> data[j] == artifact[first + j];
  }

  predicate Need(spans: seq<(int, int)>, i: int) {
    exists k :: 0 <= k < |spans| && spans[k].0 / BLOCK <= i <= spans[k].1 / BLOCK
  }

  /** A block is needed exactly when some span has a byte in it. */
  lemma NeedExactly(spans: seq<(int, int)>, i: int)
    requires forall k :: 0 <= k < |spans| ==> spans[k].0 <= spans[k].1
    ensures Need(spans, i) <==> exists k, x :: 0 <= k < |spans| && Holds(spans[k], x) && x / 0x10_0000 == i
  {
    if Need(spans, i) {
      var k :| 0 <= k < |spans| && spans[k].0 / BLOCK <= i <= spans[k].1 / BLOCK;
      var x := if spans[k].0 / BLOCK == i then spans[k].0 else i * BLOCK;
      assert Holds(spans[k], x) && x / 0x10_0000 == i;
    }
    if k, x :| 0 <= k < |spans| && Holds(spans[k], x) && x / 0x10_0000 == i {
      assert spans[k].0 / BLOCK <= i <= spans[k].1 / BLOCK;
    }
  }

  predicate Holds(span: (int, int), x: int) {
    span.0 <= x <= span.1
  }

  class RangeFile {
    const size: nat
    ghost const artifact: Bytes
    var pos: int
    var blocks: map<int, Bytes>

    ghost predicate Valid()
      reads this
    {
      |artifact| == size && forall i :: i in blocks ==> Genuine(artifact, i, blocks[i])
    }

    constructor (size: nat, ghost artifact: Bytes)
      requires |artifact| == size
      ensures Valid() && this.size == size && this.artifact == artifact && pos == 0 && blocks == map[]
    {
      this.size, this.artifact, pos, blocks := size, artifact, 0, map[];
    }

    /** Fetch one block and cache it, if it can be had. */
    method Load(serve: Server, i: int)
      requires Valid() && Honest(artifact, serve)
      modifies this`blocks
      ensures Valid()
      ensures blocks == if Fetched(size, serve, i).Some? then old(blocks)[i := Fetched(size, serve, i).value]
                        else old(blocks)
    {
      hide Honest, Genuine, Gotten;
      var data := Get(serve, i * BLOCK, Min(size, i * BLOCK + BLOCK) - 1);
      FetchedIsGenuine(artifact, serve, i);
      if data.Some? { blocks := blocks[i := data.value]; }
    }

    /** Fetch the blocks the spans touch that are not cached yet. */
    method Prefetch(serve: Server, spans: seq<(int, int)>)
      requires Valid() && Honest(artifact, serve)
      modifies this`blocks
      ensures Valid() && old(blocks).Keys <= blocks.Keys
      ensures forall i :: i in old(blocks) ==> blocks[i] == old(blocks)[i]
      ensures forall i :: i in blocks && i !in old(blocks) ==>
        Need(spans, i) && Fetched(size, serve, i) == Some(blocks[i])
      ensures forall i :: 0 <= i * BLOCK < size && Need(spans, i) && Fetched(size, serve, i).Some? ==> i in blocks
    {
      hide Genuine, Fetched, Need, Honest;
      ghost var was := blocks;
      var last, i := (size - 1) / BLOCK, 0;
      while i <= last
        invariant 0 <= i && Valid() && was.Keys <= blocks.Keys
        invariant forall j :: j in was ==> blocks[j] == was[j]
        invariant forall j :: j in blocks && j !in was ==> Need(spans, j) && Fetched(size, serve, j) == Some(blocks[j])
        invariant forall j :: 0 <= j < i && Need(spans, j) && Fetched(size, serve, j).Some? ==> j in blocks
        decreases last + 1 - i
      {
        if Need(spans, i) && i !in blocks {
          Load(serve, i);
        }
        i := i + 1;
      }
    }

    method Seek(offset: int, whence: nat) returns (r: Option<int>)
      modifies this`pos
      ensures r.Some? <==> whence <= 2
      ensures pos == if whence == 0 then offset else if whence == 1 then old(pos) + offset
                     else if whence == 2 then size + offset else old(pos)
      ensures r.Some? ==> r.value == pos
    {
      if whence > 2 { return None; }
      pos := if whence == 0 then offset else if whence == 1 then pos + offset else size + offset;
      r := Some(pos);
    }

    /** The rest of the block at pos, up to end. */
    method Piece(serve: Server, end: int) returns (take: Option<Bytes>)
      requires Valid() && Honest(artifact, serve) && pos < end <= size
      modifies this`pos, this`blocks
      ensures Valid() && old(blocks).Keys <= blocks.Keys
      ensures forall i :: i in old(blocks) ==> blocks[i] == old(blocks)[i]
      ensures take.Some? ==> 0 <= old(pos) < pos <= end && take.value == artifact[old(pos)..pos]
      ensures take.None? ==> pos == old(pos) && !Whole(size, blocks, pos / BLOCK)
      ensures blocks == if old(pos) / BLOCK !in old(blocks) && Fetched(size, serve, old(pos) / BLOCK).Some?
                        then old(blocks)[old(pos) / BLOCK := Fetched(size, serve, old(pos) / BLOCK).value]
                        else old(blocks)
      ensures Whole(size, old(blocks), old(pos) / BLOCK) ==> take.Some?
    {
      hide Fetched, Honest, Genuine;
      var i := pos / BLOCK;
      if i !in blocks {
        Load(serve, i);
        if i !in blocks { return None; }
      }
      var off := pos - i * BLOCK;
      var stop := Min(|blocks[i]|, off + end - pos);
      if stop <= off { return None; }
      take := Some(blocks[i][off..stop]);
      PieceOf(artifact, i, blocks[i], pos, stop - off);
      pos := pos + |take.value|;
    }

    /** Read n bytes, or all that is left: what a plain file would give, or an error on a block that cannot
        be had whole enough. */
    method Read(serve: Server, n: int) returns (r: Option<Bytes>)
      requires Valid() && Honest(artifact, serve)
      modifies this`pos, this`blocks
      ensures Valid() && old(blocks).Keys <= blocks.Keys
      ensures forall i :: i in old(blocks) ==> blocks[i] == old(blocks)[i]
      ensures forall i :: i in blocks && i !in old(blocks) ==> Fetched(size, serve, i) == Some(blocks[i])
      ensures var end := End(size, old(pos), n);
        && (r.Some? ==> r.value == Plain(artifact, old(pos), end) && pos == if end < old(pos) then old(pos) else end)
        && (r.None? ==> old(pos) <= pos < end && !Whole(size, blocks, pos / BLOCK)
                        && (pos / BLOCK in blocks || Fetched(size, serve, pos / BLOCK).None?))
        && (old(pos) < 0 && old(pos) < end ==> r.None? && pos == old(pos))
        && (AllWhole(size, old(blocks), old(pos), end) ==> r.Some?)
    {
      hide Honest, Genuine, Whole, Fetched;
      var end := End(size, pos, n);
      ghost var start, was := pos, blocks;
      var out: Bytes := [];
      while pos < end
        invariant start <= pos && (pos <= end || pos == start)
        invariant start < 0 && start < end ==> pos == start
        invariant Valid() && was.Keys <= blocks.Keys && forall i :: i in was ==> blocks[i] == was[i]
        invariant forall i :: i in blocks && i !in was ==> Fetched(size, serve, i) == Some(blocks[i])
        invariant out == if 0 <= start < end then artifact[start..pos] else []
        decreases end - pos
      {
        if AllWhole(size, was, start, end) { StillWhole(size, was, blocks, pos / BLOCK); }
        ghost var at := pos;
        var take := Piece(serve, end);
        if take.None? { return None; }
        assert artifact[start..at] + artifact[at..pos] == artifact[start..pos];
        out := out + take.value;
      }
      r := Some(out);
    }
  }

  lemma StillWhole(size: nat, was: map<int, Bytes>, blocks: map<int, Bytes>, i: int)
    requires was.Keys <= blocks.Keys && forall j :: j in was ==> blocks[j] == was[j]
    ensures Whole(size, was, i) ==> Whole(size, blocks, i)
  {
  }
}
