/** The resumable download: one streamed body, its Range continuation, and what reaches the file. */
module Transfer {
  import opened Strings

  /** A byte is a character. */
  type Bytes = string

  const MAX_RESUMES := 200
  const RESUME_CHUNK := 0x2000_0000
  const MAX_SLEEP_SECONDS := 300
  const RETRY_STATUS := {429, 503, 504}

  /** Where a payload goes, and the running hash as the bytes fed to it. */
  class Output {
    var bytes: Bytes
    var fed: Bytes

    constructor (bytes: Bytes)
      ensures this.bytes == bytes && fed == []
    {
      this.bytes, fed := bytes, [];
    }

    method Put(chunk: Bytes)
      modifies this
      ensures bytes == old(bytes) + chunk && fed == old(fed) + chunk
    {
      fed := fed + chunk;
      bytes := bytes + chunk;
    }
  }

  /** A response body: what it still delivers, whether it then breaks instead of ending, and the bytes a
      `DropAfter` around it still lets through. */
  class Body {
    var left: Bytes
    var broken: bool
    var limit: Option<nat>

    constructor (data: Bytes, broken: bool, limit: Option<nat>)
      ensures left == data && this.broken == broken && this.limit == limit
    {
      left, this.broken, this.limit := data, broken, limit;
    }

    /** The bytes reading to the end would give. */
    function Rest(): Bytes
      reads this
    {
      if limit.Some? && limit.value < |left| then left[..limit.value] else left
    }

    /** Whether reading to the end raises. A reached limit ends the body first. */
    predicate Breaks()
      reads this
    {
      broken && (limit.Some? ==> limit.value > |left|)
    }

    /** One read: some of what is left, nothing at the end, or a failure. */
    method Read(amount: nat) returns (chunk: Bytes, failed: bool)
      requires amount > 0
      modifies this
      ensures failed ==> chunk == [] && old(Rest()) == [] && old(Breaks())
      ensures !failed && chunk == [] ==> old(Rest()) == [] && !old(Breaks())
      ensures old(Rest()) == chunk + Rest() && Breaks() == old(Breaks())
      ensures |chunk| <= amount
    {
      if limit.Some? && limit.value == 0 { return [], false; }
      if left == [] { return [], broken; }
      var most := if limit.Some? && limit.value < amount then limit.value else amount;
      var n: nat :| 0 < n <= most && n <= |left|;
      chunk, failed := left[..n], false;
      ghost var was := left;
      left := left[n..];
      limit := if limit.Some? then Some(limit.value - n) else None;
    }
  }

  /** How streaming a body ended. */
  datatype Streamed = Ended(count: nat) | Over(count: nat) | Broke(count: nat)

  predicate PassesCap(cap: nat, seen: nat, data: Bytes) {
    data != [] && seen + |data| > cap
  }

  lemma Advance(data: Bytes, total: nat, chunk: Bytes, rest: Bytes)
    requires total <= |data| && data[total..] == chunk + rest
    ensures total + |chunk| <= |data| && data[total + |chunk|..] == rest
    ensures data[..total + |chunk|] == data[..total] + chunk
  {
    assert data == data[..total] + data[total..];
    assert data == data[..total] + chunk + rest;
  }

  lemma Behind(a: Bytes, b: Bytes, c: Bytes)
    ensures a + b + c == a + (b + c)
  {
  }

  /** Copy a body up to the cap. What is written is hashed, and nothing past the cap is written. */
  method Stream(body: Body, out: Output, cap: nat, seen: nat) returns (r: Streamed, ghost n: nat)
    modifies body, out
    ensures n <= |old(body.Rest())| && (n > 0 ==> seen + n <= cap) && (!r.Over? ==> n == |old(body.Rest())|)
    ensures out.bytes == old(out.bytes) + old(body.Rest())[..n] && out.fed == old(out.fed) + old(body.Rest())[..n]
    ensures r.Over? <==> PassesCap(cap, seen, old(body.Rest()))
    ensures r.Over? ==> seen + r.count > cap
    ensures !r.Over? ==> (r.Broke? <==> old(body.Breaks()))
    ensures r.Ended? ==> r.count == |old(body.Rest())|
    ensures r.Broke? ==> r.count == |old(body.Rest())|
  {
    ghost var data := body.Rest();
    var total := 0;
    assert data[..0] == [] && data[0..] == data;
    assert old(out.bytes) + [] == old(out.bytes) && old(out.fed) + [] == old(out.fed);
    while true
      invariant total <= |data| && body.Rest() == data[total..] && body.Breaks() == old(body.Breaks())
      invariant out.bytes == old(out.bytes) + data[..total] && out.fed == old(out.fed) + data[..total]
      invariant total > 0 ==> seen + total <= cap
      decreases |data| - total
    {
      var chunk, failed := body.Read(256 * 1024);
      if failed { return Broke(total), total; }
      if chunk == [] { return Ended(total), total; }
      Advance(data, total, chunk, body.Rest());
      n := total;
      total := total + |chunk|;
      if seen + total > cap { return Over(total), n; }
      Behind(old(out.bytes), data[..n], chunk);
      Behind(old(out.fed), data[..n], chunk);
      out.Put(chunk);
    }
  }

  // ------------------------------------------------------------------ the continuation

  /** What one range request brings back: nothing but an exception, or a response. */
  datatype Reply = NoReply | Reply(status: nat, retryAfter: Option<nat>, start: Option<nat>, data: Bytes, broken: bool)

  /** An adversary: its answer to the n-th range request, for bytes first to last. */
  type Server = (nat, nat, nat) -> Reply

  datatype Why = Whole | TooLong | Ignored | Refused(status: nat) | WrongStart | PastCap | Stalled | GaveUp | Raised

  datatype End = End(have: nat, why: Why, sent: nat, data: Bytes)

  /** One round's effect on the loop. */
  datatype Round = Stop(why: Why) | Again | Got(data: Bytes)

  function RoundOf(r: Reply, have: nat, cap: nat): Round {
    match r
    case NoReply => Stop(Raised)
    case Reply(status, wait, start, data, _) =>
      if status in RETRY_STATUS then
        if wait.Some? && wait.value > MAX_SLEEP_SECONDS then Stop(TooLong) else Again
      else if status == 200 then Stop(Ignored)
      else if status != 206 then Stop(Refused(status))
      else if start.Some? && start.value != have then Stop(WrongStart)
      else if data != [] && have + |data| > cap then Stop(PastCap)
      else Got(data)
  }

  /** The end of the next span: the artifact's, or half a GiB on. */
  function LastByte(have: nat, declared: nat): (last: nat)
    requires have < declared
    ensures have <= last < declared && last - have < 0x2000_0000
    ensures last == declared - 1 || last - have == 0x2000_0000 - 1
  {
    (if have + RESUME_CHUNK < declared then have + RESUME_CHUNK else declared) - 1
  }

  /** The rounds from here: `left` are allowed, `sent` were sent, `stalled` of the last brought nothing. */
  function Rounds(server: Server, cap: nat, declared: nat, have: nat, stalled: nat, sent: nat, left: nat): (e: End)
    ensures e.sent <= sent + left
    decreases left
  {
    if left == 0 then End(have, GaveUp, sent, [])
    else if have >= declared then End(have, Whole, sent, [])
    else
      match RoundOf(server(sent, have, LastByte(have, declared)), have, cap)
      case Stop(why) => End(have, why, sent + 1, [])
      case Again => Rounds(server, cap, declared, have, stalled, sent + 1, left - 1)
      case Got(data) =>
        if data == [] && stalled + 1 > 1 then End(have, Stalled, sent + 1, [])
        else
          var now := if data == [] then stalled + 1 else 0;
          var e := Rounds(server, cap, declared, have + |data|, now, sent + 1, left - 1);
          e.(data := data + e.data)
  }

  /** Take one reply: refuse it, wait and ask again, or stream its body behind what is already here. */
  method TakeReply(reply: Reply, out: Output, have: nat, cap: nat) returns (r: Round, total: nat, ghost x: Bytes)
    modifies out
    ensures r == RoundOf(reply, have, cap)
    ensures out.bytes == old(out.bytes) + x && out.fed == old(out.fed) + x && (x != [] ==> have + |x| <= cap)
    ensures r.Got? ==> x == r.data && total == |x|
    ensures !r.Got? && r != Stop(PastCap) ==> x == [] && total == 0
    ensures r == Stop(PastCap) ==> have + total > cap && reply.Reply? && x <= reply.data
  {
    total, x := 0, [];
    if reply.NoReply? { return Stop(Raised), total, x; }
    if reply.status in RETRY_STATUS {
      var long := reply.retryAfter.Some? && reply.retryAfter.value > MAX_SLEEP_SECONDS;
      return if long then Stop(TooLong) else Again, total, x;
    }
    if reply.status == 200 { return Stop(Ignored), total, x; }
    if reply.status != 206 { return Stop(Refused(reply.status)), total, x; }
    if reply.start.Some? && reply.start.value != have { return Stop(WrongStart), total, x; }
    var body := new Body(reply.data, reply.broken, None);
    var streamed, n := Stream(body, out, cap, have);
    x := reply.data[..n];
    total := streamed.count;
    r := if streamed.Over? then Stop(PastCap) else Got(reply.data);
  }

  lemma RoundsStep(server: Server, cap: nat, declared: nat, have: nat, stalled: nat, sent: nat, left: nat)
    ensures left == 0 ==> Rounds(server, cap, declared, have, stalled, sent, left) == End(have, GaveUp, sent, [])
    ensures left > 0 && have >= declared ==>
      Rounds(server, cap, declared, have, stalled, sent, left) == End(have, Whole, sent, [])
    ensures left > 0 && have < declared ==>
      var r := RoundOf(server(sent, have, LastByte(have, declared)), have, cap);
      var e := Rounds(server, cap, declared, have, stalled, sent, left);
      && (r.Stop? ==> e == End(have, r.why, sent + 1, []))
      && (r.Again? ==> e == Rounds(server, cap, declared, have, stalled, sent + 1, left - 1))
      && (r.Got? && r.data == [] && stalled > 0 ==> e == End(have, Stalled, sent + 1, []))
      && (r.Got? && (r.data != [] || stalled == 0) ==>
            var now := if r.data == [] then 1 else 0;
            var rest := Rounds(server, cap, declared, have + |r.data|, now, sent + 1, left - 1);
            e == rest.(data := r.data + rest.data))
  {
  }

  /** The rounds from here are the rest of the whole, behind what was appended. */
  ghost predicate Remains(whole: End, x: Bytes, e: End) {
    whole.have == e.have && whole.why == e.why && whole.sent == e.sent && whole.data == x + e.data
  }

  /** One more reply taken. */
  lemma RoundsOn(server: Server, cap: nat, declared: nat, have: nat, stalled: nat, sent: nat, left: nat, x: Bytes,
                 whole: End)
    requires left > 0 && have < declared
    requires Remains(whole, x, Rounds(server, cap, declared, have, stalled, sent, left))
    ensures var r := RoundOf(server(sent, have, LastByte(have, declared)), have, cap);
      var now := if !r.Got? then stalled else if r.data == [] then stalled + 1 else 0;
      var y := if r.Got? then r.data else [];
      var rest := Rounds(server, cap, declared, have + |y|, now, sent + 1, left - 1);
      r.Again? || (r.Got? && now <= 1) ==> Remains(whole, x + y, rest)
  {
    hide RoundOf, LastByte;
  }

  /** Behind what the rounds appended come first bytes of the reply that passes the cap. */
  ghost predicate CutAtCap(server: Server, declared: nat, e: End, x: Bytes) {
    && 0 < e.sent && e.have < declared
    && var r := server(e.sent - 1, e.have, LastByte(e.have, declared));
       r.Reply? && exists y :: y <= r.data && x == e.data + y
  }

  /** The reply that ends the rounds. */
  lemma StopsHere(server: Server, cap: nat, declared: nat, have: nat, stalled: nat, sent: nat, left: nat, x: Bytes,
                  y: Bytes, whole: End)
    requires left > 0 && have < declared
    requires Remains(whole, x, Rounds(server, cap, declared, have, stalled, sent, left))
    ensures var reply := server(sent, have, LastByte(have, declared)); var r := RoundOf(reply, have, cap);
      r.Stop? ==>
        && whole == End(have, r.why, sent + 1, x)
        && (reply.Reply? && y <= reply.data ==> CutAtCap(server, declared, whole, x + y))
  {
    hide RoundOf, LastByte;
    assert x + [] == x;
  }

  /** Continue a transfer that ended early. The rounds decide how it ends and what is appended, save that a
      round past the cap appends its bytes only up to the cap. */
  method Resume(server: Server, out: Output, have0: nat, declared: nat, cap: nat)
    returns (have: nat, why: Why, sent: nat, ghost x: Bytes)
    modifies out
    ensures var e := Rounds(server, cap, declared, have0, 0, 0, MAX_RESUMES);
      && why == e.why && sent == e.sent && sent <= MAX_RESUMES
      && (why != PastCap ==> have == e.have == have0 + |x| && x == e.data)
      && (why == PastCap ==> have > cap && CutAtCap(server, declared, e, x))
    ensures out.bytes == old(out.bytes) + x && out.fed == old(out.fed) + x && (x != [] ==> have0 + |x| <= cap)
  {
    hide Rounds, RoundOf, LastByte, CutAtCap;
    have, sent, x := have0, 0, [];
    var stalled := 0;
    var left: nat := MAX_RESUMES;
    ghost var whole := Rounds(server, cap, declared, have0, 0, 0, MAX_RESUMES);
    while left > 0
      invariant left <= MAX_RESUMES && sent == MAX_RESUMES - left
      invariant out.bytes == old(out.bytes) + x && out.fed == old(out.fed) + x && have == have0 + |x|
      invariant x != [] ==> have <= cap
      invariant Remains(whole, x, Rounds(server, cap, declared, have, stalled, sent, left))
      invariant stalled <= 1
      decreases left
    {
      RoundsStep(server, cap, declared, have, stalled, sent, left);
      if have >= declared { return have, Whole, sent, x; }
      RoundsOn(server, cap, declared, have, stalled, sent, left, x, whole);
      var reply := server(sent, have, LastByte(have, declared));
      var r, total, y := TakeReply(reply, out, have, cap);
      StopsHere(server, cap, declared, have, stalled, sent, left, x, y, whole);
      Behind(old(out.bytes), x, y);
      Behind(old(out.fed), x, y);
      sent, left := sent + 1, left - 1;
      if r.Stop? {
        if r.why != PastCap { assert x + y == x; }
        return have + total, r.why, sent, x + y;
      }
      x := x + y;
      if r.Got? {
        have := have + total;
        stalled := if total == 0 then stalled + 1 else 0;
        if stalled > 1 { return have, Stalled, sent, x; }
      }
    }
    RoundsStep(server, cap, declared, have, stalled, sent, 0);
    why := GaveUp;
  }

  // ------------------------------------------------------------------ exactness

  /** Every 206 that is taken carries bytes of the span it was asked for, from its first byte on. */
  ghost predicate HonestServer(server: Server, artifact: Bytes) {
    forall n: nat, first: nat, last: nat :: first <= last < |artifact| ==>
      var r := server(n, first, last);
      r.Reply? && r.status == 206 && (r.start.Some? ==> r.start.value == first) ==>
        r.data <= artifact[first..last + 1]
  }

  /** Against an honest server a round that appends bytes appends those from `have` on, within the cap. */
  lemma HonestRound(server: Server, artifact: Bytes, cap: nat, have: nat, n: nat)
    requires HonestServer(server, artifact) && have < |artifact| <= cap
    ensures var r := RoundOf(server(n, have, LastByte(have, |artifact|)), have, cap);
      && r != Stop(PastCap)
      && (r.Got? ==> have + |r.data| <= |artifact| && r.data == artifact[have..have + |r.data|])
  {
    var last := LastByte(have, |artifact|);
    var reply := server(n, have, last);
    if reply.Reply? && reply.status == 206 && (reply.start.Some? ==> reply.start.value == have) {
      PrefixSpan(artifact, have, last, reply.data);
    }
  }

  ghost predicate Exact(artifact: Bytes, have: nat, e: End) {
    have <= e.have <= |artifact| && e.data == artifact[have..e.have] && e.why != PastCap
  }

  lemma ExactMore(artifact: Bytes, have: nat, data: Bytes, rest: End)
    requires have + |data| <= |artifact| && data == artifact[have..have + |data|]
    requires Exact(artifact, have + |data|, rest)
    ensures Exact(artifact, have, rest.(data := data + rest.data))
  {
    Glue(artifact, have, have + |data|, rest.have);
  }

  /** What the rounds append is the artifact from where they started, and the cap is never met. */
  lemma {:induction false} RoundsExact(server: Server, artifact: Bytes, cap: nat, have: nat, stalled: nat, sent: nat,
                                       left: nat)
    requires HonestServer(server, artifact) && have <= |artifact| <= cap
    ensures Exact(artifact, have, Rounds(server, cap, |artifact|, have, stalled, sent, left))
    decreases left
  {
    hide Rounds, RoundOf, HonestServer, LastByte, Exact;
    var e := Rounds(server, cap, |artifact|, have, stalled, sent, left);
    RoundsStep(server, cap, |artifact|, have, stalled, sent, left);
    if left == 0 || have >= |artifact| {
      ExactNone(artifact, have, e);
    } else {
      HonestRound(server, artifact, cap, have, sent);
      var r := RoundOf(server(sent, have, LastByte(have, |artifact|)), have, cap);
      if r.Again? {
        RoundsExact(server, artifact, cap, have, stalled, sent + 1, left - 1);
        assert Exact(artifact, have, e);
      } else if r.Got? && (r.data != [] || stalled == 0) {
        var next, now := have + |r.data|, if r.data == [] then 1 else 0;
        var rest := Rounds(server, cap, |artifact|, next, now, sent + 1, left - 1);
        RoundsExact(server, artifact, cap, next, now, sent + 1, left - 1);
        ExactMore(artifact, have, r.data, rest);
        assert e == rest.(data := r.data + rest.data);
      } else {
        ExactNone(artifact, have, e);
      }
    }
  }

  lemma ExactNone(artifact: Bytes, have: nat, e: End)
    requires have == e.have <= |artifact| && e.data == [] && e.why != PastCap
    ensures Exact(artifact, have, e)
  {
  }

  lemma PrefixSpan(artifact: Bytes, first: nat, last: nat, data: Bytes)
    requires first <= last < |artifact| && data <= artifact[first..last + 1]
    ensures first + |data| <= |artifact| && data == artifact[first..first + |data|]
  {
  }

  lemma Glue(artifact: Bytes, a: nat, b: nat, c: nat)
    requires a <= b <= c <= |artifact|
    ensures artifact[a..b] + artifact[b..c] == artifact[a..c]
  {
  }

  /** A continuation that reports success has the file whole. */
  lemma {:induction false} WholeReaches(server: Server, cap: nat, declared: nat, have: nat, stalled: nat, sent: nat,
                                        left: nat)
    ensures var e := Rounds(server, cap, declared, have, stalled, sent, left); e.why == Whole ==> e.have >= declared
    decreases left
  {
    if left > 0 && have < declared {
      match RoundOf(server(sent, have, LastByte(have, declared)), have, cap)
      case Stop(why) =>
      case Again => WholeReaches(server, cap, declared, have, stalled, sent + 1, left - 1);
      case Got(data) =>
        WholeReaches(server, cap, declared, have + |data|, if data == [] then stalled + 1 else 0, sent + 1, left - 1);
    }
  }

  // ------------------------------------------------------------------ how a continuation ends, from its replies

  /** The reply asks to come back later, and not too late. */
  predicate Waits(r: Reply) {
    && r.Reply? && (r.status == 429 || r.status == 503 || r.status == 504)
    && (r.retryAfter.Some? ==> r.retryAfter.value <= 300)
  }

  /** The reply carries bytes from `have` on, perhaps none, and they stay within the cap. */
  predicate Carries(r: Reply, have: nat, cap: nat) {
    && r.Reply? && r.status == 206 && (r.start.Some? ==> r.start.value == have)
    && (r.data == [] || have + |r.data| <= cap)
  }

  /** The reply is not taken, for this reason. */
  predicate Ends(r: Reply, have: nat, cap: nat, why: Why) {
    match why
    case Raised => r.NoReply?
    case TooLong =>
      && r.Reply? && (r.status == 429 || r.status == 503 || r.status == 504)
      && r.retryAfter.Some? && r.retryAfter.value > 300
    case Ignored => r.Reply? && r.status == 200
    case Refused(status) => r.Reply? && r.status == status && status !in {200, 206, 429, 503, 504}
    case WrongStart => r.Reply? && r.status == 206 && r.start.Some? && r.start.value != have
    case PastCap =>
      r.Reply? && r.status == 206 && (r.start.Some? ==> r.start.value == have) && r.data != [] && have + |r.data| > cap
    case _ => false
  }

  lemma RoundIs(r: Reply, have: nat, cap: nat)
    ensures var o := RoundOf(r, have, cap);
      && (o.Again? <==> Waits(r)) && (o.Got? <==> Carries(r, have, cap)) && (o.Got? ==> o.data == r.data)
      && forall why :: o == Stop(why) <==> Ends(r, have, cap, why)
  {
  }

  /** The server's n-th reply, to a continuation at byte `have`. */
  function ReplyAt(server: Server, declared: nat, n: nat, have: nat): Reply
    requires have < declared
  {
    server(n, have, LastByte(have, declared))
  }

  /** The n-th reply is taken and leaves the file at byte `next`. */
  predicate Brings(server: Server, cap: nat, declared: nat, n: nat, have: nat, next: nat) {
    have < declared &&
    var r := ReplyAt(server, declared, n, have);
    (Waits(r) && next == have) || (Carries(r, have, cap) && next == have + |r.data|)
  }

  predicate Empty(server: Server, cap: nat, declared: nat, n: nat, have: nat) {
    have < declared &&
    var r := ReplyAt(server, declared, n, have);
    Carries(r, have, cap) && r.data == []
  }

  /** How many of the last replies were empty, with one more reply. */
  function Stalls(server: Server, cap: nat, declared: nat, n: nat, have: nat, next: nat, stalled: nat): nat {
    if Empty(server, cap, declared, n, have) then stalled + 1 else if next > have then 0 else stalled
  }

  lemma StallsAtMost(server: Server, cap: nat, declared: nat, n: nat, have: nat, next: nat, stalled: nat)
    requires stalled <= 1 && (Empty(server, cap, declared, n, have) ==> stalled == 0)
    ensures Stalls(server, cap, declared, n, have, next, stalled) <= 1
  {
  }

  /** The bytes at hand before the replies sent, sent + 1, ... are taken one after the other, and no two of them
      are empty at the same byte. */
  ghost predicate Course(server: Server, cap: nat, declared: nat, sent: nat, h: seq<nat>) {
    && h != []
    && (forall i :: 0 <= i < |h| - 1 ==> Brings(server, cap, declared, sent + i, h[i], h[i + 1]))
    && (forall i, j :: 0 <= i < j < |h| - 1 && h[i] == h[j] ==>
          !(Empty(server, cap, declared, sent + i, h[i]) && Empty(server, cap, declared, sent + j, h[j])))
  }

  /** The bytes that the replies of a course brought. */
  function Brought(server: Server, declared: nat, sent: nat, h: seq<nat>): Bytes
    decreases |h|
  {
    if |h| <= 1 || h[0] >= declared then []
    else
      var r := ReplyAt(server, declared, sent, h[0]);
      (if r.Reply? && r.status == 206 then r.data else []) + Brought(server, declared, sent + 1, h[1..])
  }

  /** A reply of the course was empty at its last byte; or, `stalled` of the replies before it. */
  ghost predicate StalledBefore(server: Server, cap: nat, declared: nat, stalled: nat, sent: nat, h: seq<nat>)
    requires h != []
  {
    var last := h[|h| - 1];
    || (stalled > 0 && last == h[0])
    || exists i :: 0 <= i < |h| - 1 && h[i] == last && Empty(server, cap, declared, sent + i, h[i])
  }

  /** A course of at most `left` replies is ended by this reason: all were allowed, the file is at its end, the next
      reply is the second empty one in a row, or the next reply is not taken. */
  ghost predicate Finishes(server: Server, cap: nat, declared: nat, stalled: nat, sent: nat, left: nat, h: seq<nat>,
                           why: Why)
    requires h != []
  {
    var n, last := |h| - 1, h[|h| - 1];
    if why == GaveUp then n == left
    else if why == Whole then n < left && last >= declared
    else
      n < left && last < declared &&
      if why == Stalled then
        Empty(server, cap, declared, sent + n, last) && StalledBefore(server, cap, declared, stalled, sent, h)
      else Ends(ReplyAt(server, declared, sent + n, last), last, cap, why)
  }

  /** What a course that is ended so comes to: every reply but the last is taken, and the one that ends it, if any, is
      counted. */
  function EndOf(server: Server, declared: nat, sent: nat, h: seq<nat>, why: Why): End
    requires h != []
  {
    End(h[|h| - 1], why, sent + |h| - (if why == GaveUp || why == Whole then 1 else 0),
        Brought(server, declared, sent, h))
  }

  /** None is empty at its first byte, if an empty one came before. */
  ghost predicate After(server: Server, cap: nat, declared: nat, stalled: nat, sent: nat, h: seq<nat>) {
    stalled > 0 ==> forall i :: 0 <= i < |h| - 1 && h[i] == h[0] ==> !Empty(server, cap, declared, sent + i, h[i])
  }

  lemma {:induction false} CourseRises(server: Server, cap: nat, declared: nat, sent: nat, h: seq<nat>, j: nat)
    requires Course(server, cap, declared, sent, h) && j < |h|
    ensures h[0] <= h[j]
  {
    if j > 0 {
      CourseRises(server, cap, declared, sent, h, j - 1);
      assert Brings(server, cap, declared, sent + (j - 1), h[j - 1], h[j - 1 + 1]);
    }
  }

  lemma CourseTail(server: Server, cap: nat, declared: nat, stalled: nat, sent: nat, h: seq<nat>)
    requires Course(server, cap, declared, sent, h) && After(server, cap, declared, stalled, sent, h) && |h| > 1
    ensures Brings(server, cap, declared, sent, h[0], h[1]) && Course(server, cap, declared, sent + 1, h[1..])
    ensures var stalled' := Stalls(server, cap, declared, sent, h[0], h[1], stalled);
      After(server, cap, declared, stalled', sent + 1, h[1..])
    ensures Empty(server, cap, declared, sent, h[0]) ==> stalled == 0
  {
    var t := h[1..];
    assert Brings(server, cap, declared, sent + 0, h[0], h[0 + 1]);
    forall i | 0 <= i < |t| - 1 ensures Brings(server, cap, declared, sent + 1 + i, t[i], t[i + 1]) {
      assert Brings(server, cap, declared, sent + (i + 1), h[i + 1], h[i + 1 + 1]);
    }
    forall i, j | 0 <= i < j < |t| - 1 && t[i] == t[j]
      ensures !(Empty(server, cap, declared, sent + 1 + i, t[i]) && Empty(server, cap, declared, sent + 1 + j, t[j]))
    {
      assert h[i + 1] == h[j + 1];
    }
    forall i | 0 <= i < |t| - 1 && t[i] == t[0] && h[1] == h[0]
      ensures Empty(server, cap, declared, sent + 0, h[0]) ==> !Empty(server, cap, declared, sent + 1 + i, t[i])
      ensures stalled > 0 ==> !Empty(server, cap, declared, sent + 1 + i, t[i])
    {
      assert h[0] == h[i + 1];
    }
  }

  lemma FinishesTail(server: Server, cap: nat, declared: nat, stalled: nat, sent: nat, left: nat, h: seq<nat>, why: Why)
    requires Course(server, cap, declared, sent, h) && After(server, cap, declared, stalled, sent, h)
    requires |h| > 1 && left > 0 && Finishes(server, cap, declared, stalled, sent, left, h, why)
    ensures var stalled' := Stalls(server, cap, declared, sent, h[0], h[1], stalled);
      Finishes(server, cap, declared, stalled', sent + 1, left - 1, h[1..], why)
  {
    hide RoundOf, ReplyAt;
    var t, last := h[1..], h[|h| - 1];
    assert Brings(server, cap, declared, sent + 0, h[0], h[0 + 1]);
    if why == Stalled {
      CourseTail(server, cap, declared, stalled, sent, h);
      CourseRises(server, cap, declared, sent + 1, t, |t| - 1);
      var stalled' := Stalls(server, cap, declared, sent, h[0], h[1], stalled);
      if i :| 0 <= i < |h| - 1 && h[i] == last && Empty(server, cap, declared, sent + i, h[i]) {
        if i > 0 {
          assert t[i - 1] == last && Empty(server, cap, declared, sent + 1 + (i - 1), t[i - 1]);
        } else {
          assert h[1] == h[0] && stalled' > 0;
        }
      } else {
        assert h[1] == h[0] && stalled' > 0;
      }
    }
  }

  /** A course that is ended before a reply is taken. */
  lemma NoneTaken(server: Server, cap: nat, declared: nat, stalled: nat, sent: nat, left: nat, have: nat, why: Why)
    requires Finishes(server, cap, declared, stalled, sent, left, [have], why) && stalled <= 1
    ensures Rounds(server, cap, declared, have, stalled, sent, left) == EndOf(server, declared, sent, [have], why)
  {
    hide Rounds, RoundOf;
    RoundsStep(server, cap, declared, have, stalled, sent, left);
    if have < declared { RoundIs(ReplyAt(server, declared, sent, have), have, cap); }
  }

  /** The first reply of a course is taken. */
  lemma FirstTaken(server: Server, cap: nat, declared: nat, stalled: nat, sent: nat, left: nat, h: seq<nat>, why: Why)
    requires |h| > 1 && left > 0 && Brings(server, cap, declared, sent, h[0], h[1]) && stalled <= 1
    requires Empty(server, cap, declared, sent, h[0]) ==> stalled == 0
    requires var stalled' := Stalls(server, cap, declared, sent, h[0], h[1], stalled);
      Rounds(server, cap, declared, h[1], stalled', sent + 1, left - 1) ==
        EndOf(server, declared, sent + 1, h[1..], why)
    ensures Rounds(server, cap, declared, h[0], stalled, sent, left) == EndOf(server, declared, sent, h, why)
  {
    hide Rounds, RoundOf, LastByte, Ends;
    RoundsStep(server, cap, declared, h[0], stalled, sent, left);
    var r := ReplyAt(server, declared, sent, h[0]);
    RoundIs(r, h[0], cap);
    var rest := Brought(server, declared, sent + 1, h[1..]);
    assert Brought(server, declared, sent, h) == (if r.status == 206 then r.data else []) + rest;
    assert [] + rest == rest;
  }

  /** A course that is ended by a reason is the continuation. */
  lemma {:induction false} CourseIsRounds(server: Server, cap: nat, declared: nat, stalled: nat, sent: nat, left: nat,
                                          h: seq<nat>, why: Why)
    requires Course(server, cap, declared, sent, h) && After(server, cap, declared, stalled, sent, h)
    requires Finishes(server, cap, declared, stalled, sent, left, h, why) && stalled <= 1
    ensures Rounds(server, cap, declared, h[0], stalled, sent, left) == EndOf(server, declared, sent, h, why)
    decreases left
  {
    hide Rounds, RoundOf;
    if |h| == 1 {
      assert h == [h[0]];
      NoneTaken(server, cap, declared, stalled, sent, left, h[0], why);
    } else {
      CourseTail(server, cap, declared, stalled, sent, h);
      assert left > 0;
      FinishesTail(server, cap, declared, stalled, sent, left, h, why);
      hide Course, Finishes, After, EndOf, Empty, Brings;
      var stalled' := Stalls(server, cap, declared, sent, h[0], h[1], stalled);
      StallsAtMost(server, cap, declared, sent, h[0], h[1], stalled);
      CourseIsRounds(server, cap, declared, stalled', sent + 1, left - 1, h[1..], why);
      FirstTaken(server, cap, declared, stalled, sent, left, h, why);
    }
  }

  /** Index i of a course is index i - 1 of its tail. */
  lemma TailEmpty(server: Server, cap: nat, declared: nat, sent: nat, have: nat, t: seq<nat>, i: nat)
    requires 0 < i < |[have] + t|
    ensures ([have] + t)[i] == t[i - 1]
    ensures Empty(server, cap, declared, sent + i, ([have] + t)[i]) <==>
      Empty(server, cap, declared, sent + 1 + (i - 1), t[i - 1])
  {
  }

  lemma BringsMore(server: Server, cap: nat, declared: nat, sent: nat, have: nat, t: seq<nat>, i: nat)
    requires Course(server, cap, declared, sent + 1, t) && Brings(server, cap, declared, sent, have, t[0])
    requires i < |t|
    ensures var h := [have] + t; Brings(server, cap, declared, sent + i, h[i], h[i + 1])
  {
    if i > 0 { assert Brings(server, cap, declared, sent + 1 + (i - 1), t[i - 1], t[i - 1 + 1]); }
  }

  /** An empty first reply is not followed by another at its byte, and after an earlier one there is none. */
  lemma FirstEmpty(server: Server, cap: nat, declared: nat, stalled: nat, sent: nat, have: nat, t: seq<nat>, j: nat)
    requires Course(server, cap, declared, sent + 1, t) && Brings(server, cap, declared, sent, have, t[0])
    requires var stalled' := Stalls(server, cap, declared, sent, have, t[0], stalled);
      After(server, cap, declared, stalled', sent + 1, t)
    requires Empty(server, cap, declared, sent, have) ==> stalled == 0
    requires 0 < j < |t| && ([have] + t)[j] == have
    ensures Empty(server, cap, declared, sent, have) || stalled > 0 ==>
      !Empty(server, cap, declared, sent + j, ([have] + t)[j])
  {
    TailEmpty(server, cap, declared, sent, have, t, j);
    CourseRises(server, cap, declared, sent + 1, t, j - 1);
    assert t[0] == have && t[j - 1] == t[0];
    hide Course, Empty;
    assert Empty(server, cap, declared, sent, have) || stalled > 0 ==>
      !Empty(server, cap, declared, sent + 1 + (j - 1), t[j - 1]);
  }

  lemma PairsMore(server: Server, cap: nat, declared: nat, sent: nat, have: nat, t: seq<nat>, i: nat, j: nat)
    requires Course(server, cap, declared, sent + 1, t) && 0 < i < j < |t|
    requires ([have] + t)[i] == ([have] + t)[j]
    ensures var h := [have] + t;
      !(Empty(server, cap, declared, sent + i, h[i]) && Empty(server, cap, declared, sent + j, h[j]))
  {
    TailEmpty(server, cap, declared, sent, have, t, i);
    TailEmpty(server, cap, declared, sent, have, t, j);
    assert t[i - 1] == t[j - 1];
  }

  lemma CourseMore(server: Server, cap: nat, declared: nat, stalled: nat, sent: nat, have: nat, t: seq<nat>)
    requires Course(server, cap, declared, sent + 1, t) && Brings(server, cap, declared, sent, have, t[0])
    requires var stalled' := Stalls(server, cap, declared, sent, have, t[0], stalled);
      After(server, cap, declared, stalled', sent + 1, t)
    requires Empty(server, cap, declared, sent, have) ==> stalled == 0
    ensures Course(server, cap, declared, sent, [have] + t) && After(server, cap, declared, stalled, sent, [have] + t)
  {
    hide Brings, Empty;
    var h := [have] + t;
    forall i | 0 <= i < |h| - 1 ensures Brings(server, cap, declared, sent + i, h[i], h[i + 1]) {
      BringsMore(server, cap, declared, sent, have, t, i);
    }
    forall i, j | 0 <= i < j < |h| - 1 && h[i] == h[j]
      ensures !(Empty(server, cap, declared, sent + i, h[i]) && Empty(server, cap, declared, sent + j, h[j]))
    {
      if i > 0 {
        PairsMore(server, cap, declared, sent, have, t, i, j);
      } else {
        FirstEmpty(server, cap, declared, stalled, sent, have, t, j);
      }
    }
    forall i | 0 <= i < |h| - 1 && h[i] == h[0] && stalled > 0 ensures !Empty(server, cap, declared, sent + i, h[i]) {
      if i > 0 { FirstEmpty(server, cap, declared, stalled, sent, have, t, i); }
    }
  }

  lemma FinishesMore(server: Server, cap: nat, declared: nat, stalled: nat, sent: nat, left: nat, have: nat,
                     t: seq<nat>, why: Why)
    requires Course(server, cap, declared, sent + 1, t) && Brings(server, cap, declared, sent, have, t[0]) && left > 0
    requires var stalled' := Stalls(server, cap, declared, sent, have, t[0], stalled);
      Finishes(server, cap, declared, stalled', sent + 1, left - 1, t, why)
    ensures Finishes(server, cap, declared, stalled, sent, left, [have] + t, why)
  {
    var h, last := [have] + t, t[|t| - 1];
    if why == Stalled {
      if i :| 0 <= i < |t| - 1 && t[i] == last && Empty(server, cap, declared, sent + 1 + i, t[i]) {
        assert h[i + 1] == last && Empty(server, cap, declared, sent + (i + 1), h[i + 1]);
      } else if stalled == 0 || t[0] != have {
        assert Empty(server, cap, declared, sent + 0, h[0]);
      }
    }
  }

  predicate Taken(r: Reply, have: nat, cap: nat, stalled: nat) {
    Waits(r) || (Carries(r, have, cap) && (r.data != [] || stalled == 0))
  }

  /** A continuation whose next reply is taken goes on as the rounds from there. */
  lemma TakesOne(server: Server, cap: nat, declared: nat, have: nat, stalled: nat, sent: nat, left: nat)
    returns (next: nat, stalled': nat)
    requires left > 0 && have < declared && stalled <= 1
    requires Taken(ReplyAt(server, declared, sent, have), have, cap, stalled)
    ensures Brings(server, cap, declared, sent, have, next) && stalled' <= 1
    ensures stalled' == Stalls(server, cap, declared, sent, have, next, stalled)
    ensures Empty(server, cap, declared, sent, have) ==> stalled == 0
    ensures Rounds(server, cap, declared, have, stalled, sent, left).why ==
            Rounds(server, cap, declared, next, stalled', sent + 1, left - 1).why
  {
    hide Rounds, RoundOf, LastByte, Ends;
    RoundsStep(server, cap, declared, have, stalled, sent, left);
    var r := ReplyAt(server, declared, sent, have);
    RoundIs(r, have, cap);
    next := if Waits(r) then have else have + |r.data|;
    stalled' := Stalls(server, cap, declared, sent, have, next, stalled);
  }

  lemma NoneFinishes(server: Server, cap: nat, declared: nat, have: nat, stalled: nat, sent: nat, left: nat)
    requires stalled <= 1
    requires left > 0 && have < declared ==> !Taken(ReplyAt(server, declared, sent, have), have, cap, stalled)
    ensures Finishes(server, cap, declared, stalled, sent, left, [have],
                     Rounds(server, cap, declared, have, stalled, sent, left).why)
  {
    hide Rounds, RoundOf, LastByte;
    RoundsStep(server, cap, declared, have, stalled, sent, left);
    if left > 0 && have < declared { RoundIs(ReplyAt(server, declared, sent, have), have, cap); }
  }

  lemma {:induction false} RoundsHaveCourse(server: Server, cap: nat, declared: nat, have: nat, stalled: nat, sent: nat,
                                            left: nat) returns (h: seq<nat>)
    requires stalled <= 1
    ensures var e := Rounds(server, cap, declared, have, stalled, sent, left);
      && Course(server, cap, declared, sent, h) && After(server, cap, declared, stalled, sent, h) && h[0] == have
      && Finishes(server, cap, declared, stalled, sent, left, h, e.why)
    decreases left
  {
    hide Rounds, RoundOf, LastByte, Finishes, Brings, Empty, Taken, Stalls;
    if left > 0 && have < declared && Taken(ReplyAt(server, declared, sent, have), have, cap, stalled) {
      hide Course, After;
      var next, stalled' := TakesOne(server, cap, declared, have, stalled, sent, left);
      var t := RoundsHaveCourse(server, cap, declared, next, stalled', sent + 1, left - 1);
      CourseMore(server, cap, declared, stalled, sent, have, t);
      FinishesMore(server, cap, declared, stalled, sent, left, have, t,
                   Rounds(server, cap, declared, have, stalled, sent, left).why);
      h := [have] + t;
    } else {
      h := [have];
      NoneFinishes(server, cap, declared, have, stalled, sent, left);
    }
  }

  /** The replies of a course that this reason ends. */
  ghost predicate EndedBy(server: Server, cap: nat, declared: nat, have: nat, sent: nat, left: nat, h: seq<nat>,
                          why: Why) {
    && Course(server, cap, declared, sent, h) && h[0] == have
    && Finishes(server, cap, declared, 0, sent, left, h, why)
  }

  /** How a continuation ends, from its replies alone. It ends by a reason if and only if some replies, taken one after
      the other, lead to it; then they are its replies, and what they brought is what was appended. */
  lemma RoundsEnd(server: Server, cap: nat, declared: nat, have: nat, sent: nat, left: nat, why: Why)
    ensures var e := Rounds(server, cap, declared, have, 0, sent, left);
      && (e.why == why <==> exists h :: EndedBy(server, cap, declared, have, sent, left, h, why))
      && forall h :: EndedBy(server, cap, declared, have, sent, left, h, why) ==>
          e == EndOf(server, declared, sent, h, why)
  {
    var e := Rounds(server, cap, declared, have, 0, sent, left);
    forall h | EndedBy(server, cap, declared, have, sent, left, h, why)
      ensures e == EndOf(server, declared, sent, h, why)
    {
      CourseIsRounds(server, cap, declared, 0, sent, left, h, why);
    }
    var h := RoundsHaveCourse(server, cap, declared, have, 0, sent, left);
    assert EndedBy(server, cap, declared, have, sent, left, h, e.why);
  }

  /** A continuation succeeds if and only if some number of replies below the number allowed, taken one after the
      other, brings the file to the end: bytes that the last request completes are reported as a failure. */
  lemma RoundsSucceed(server: Server, cap: nat, declared: nat, have: nat, sent: nat, left: nat)
    ensures Rounds(server, cap, declared, have, 0, sent, left).why == Whole <==>
      exists h :: Course(server, cap, declared, sent, h) && h[0] == have && |h| <= left && h[|h| - 1] >= declared
  {
    RoundsEnd(server, cap, declared, have, sent, left, Whole);
    if h :| EndedBy(server, cap, declared, have, sent, left, h, Whole) {}
    if h :| Course(server, cap, declared, sent, h) && h[0] == have && |h| <= left && h[|h| - 1] >= declared {
      assert EndedBy(server, cap, declared, have, sent, left, h, Whole);
    }
  }

  /** A server that gives one byte a request. */
  function OneByte(artifact: Bytes): Server {
    (n: nat, first: nat, last: nat) =>
      if first < |artifact| then Reply(206, None, Some(first), [artifact[first]], false) else NoReply
  }

  lemma {:induction false} OneByteRounds(artifact: Bytes, have: nat, sent: nat, left: nat)
    requires have + left == |artifact|
    ensures Rounds(OneByte(artifact), |artifact|, |artifact|, have, 0, sent, left) ==
            End(|artifact|, GaveUp, sent + left, artifact[have..])
    decreases left
  {
    hide LastByte;
    if left > 0 {
      OneByteRounds(artifact, have + 1, sent + 1, left - 1);
      assert artifact[have..] == [artifact[have]] + artifact[have + 1..];
    }
  }

  /** The failing case: two hundred honest one-byte rounds bring the whole artifact and count as giving up. */
  lemma LastRoundWasted(artifact: Bytes)
    requires |artifact| == 200
    ensures HonestServer(OneByte(artifact), artifact)
    ensures Rounds(OneByte(artifact), |artifact|, |artifact|, 0, 0, 0, MAX_RESUMES) ==
            End(|artifact|, GaveUp, 200, artifact)
  {
    OneByteRounds(artifact, 0, 0, MAX_RESUMES);
    assert artifact[0..] == artifact;
  }
}
