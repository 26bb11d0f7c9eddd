/** One fetch: what is asked of whom before the artifact, and what a receipt of OK means. */
module Fetch {
  import opened Strings
  import opened Transfer

  type Url = string

  const ATTEMPTS := 4
  const MAX_HOPS := 5
  const REDIRECTS := {301, 302, 303, 307, 308}

  datatype Verdict = Allowed | Disallowed | Unknown

  datatype Code = OK | USAGE | ROBOTS_REFUSED | ROBOTS_UNREADABLE | OVER_CAP | BAD_TYPE | HTTP_FAILED | CDX_REFUSED
                | RAISED

  /** A response to one artifact request, or an exception. */
  datatype Resp = NoResp | Resp(status: nat, retryAfter: Option<nat>, location: Option<Url>, typeOk: bool,
                                length: Option<nat>, data: Bytes, broken: bool)

  /** The web as an adversary: which urls ask the CDX, what each robots.txt says, and every answer. */
  datatype Web = Web(asksCdx: Url -> bool, robots: Url -> Verdict, http: Url -> bool,
                     get: (nat, Url) -> Resp, range: Url -> Server)

  /** How the payload is taken: to a pipe or a file, the byte cap, and the dropped first connection. */
  datatype Order = Order(pipe: bool, cap: nat, fault: Option<nat>)

  // ------------------------------------------------------------------ one answered request

  /** The bytes the first response gives before it ends, breaks or is dropped. */
  function Arrives(r: Resp, o: Order): (a: Bytes)
    requires r.Resp?
    ensures a <= r.data && (o.fault.Some? ==> |a| <= o.fault.value)
    ensures o.fault.None? || |a| < o.fault.value ==> a == r.data
  {
    if o.fault.Some? && o.fault.value < |r.data| then r.data[..o.fault.value] else r.data
  }

  predicate Breaks(r: Resp, o: Order)
    requires r.Resp?
  {
    r.broken && (o.fault.Some? ==> o.fault.value > |r.data|)
  }

  function Failed(why: Why): Code {
    if why == Raised then RAISED else HTTP_FAILED
  }

  /** A part of the artifact from an earlier run is on disk. */
  predicate Continues(r: Resp, o: Order, onDisk: nat)
    requires r.Resp?
  {
    !o.pipe && r.length.Some? && 0 < onDisk < r.length.value
  }

  function Rest(server: Server, o: Order, r: Resp, have: nat): End
    requires r.Resp? && r.length.Some?
  {
    Rounds(server, o.cap, r.length.value, have, 0, 0, MAX_RESUMES)
  }

  /** The refusals before a byte is read. */
  function Refusal(r: Resp, o: Order, onDisk: nat): Option<Code>
    requires r.Resp?
  {
    if r.length.Some? && r.length.value > o.cap then Some(OVER_CAP)
    else if !r.typeOk then Some(BAD_TYPE)
    else if !Continues(r, o, onDisk) && o.fault.Some? && (r.length.None? || r.length.value <= o.fault.value) then
      Some(USAGE)
    else None
  }

  /** How a 200 lands, from its headers, its body and the rounds that continue it. */
  function Landed(server: Server, r: Resp, o: Order, onDisk: nat): Code
    requires r.Resp?
  {
    if Refusal(r, o, onDisk).Some? then Refusal(r, o, onDisk).value
    else if Continues(r, o, onDisk) then
      var e := Rest(server, o, r, onDisk);
      if e.why == Whole then OK else Failed(e.why)
    else
      var arrived := Arrives(r, o);
      if PassesCap(o.cap, 0, arrived) then OVER_CAP
      else if Breaks(r, o) && (!o.pipe || r.length.None?) then HTTP_FAILED
      else if r.length.None? then OK
      else if |arrived| >= r.length.value then if |arrived| == r.length.value then OK else HTTP_FAILED
      else
        var e := Rest(server, o, r, |arrived|);
        if e.why != Whole then Failed(e.why) else if e.have == r.length.value then OK else HTTP_FAILED
  }

  /** What has been written, and hashed, when a 200 lands OK. */
  function Payload(server: Server, r: Resp, o: Order, onDisk: Bytes): Bytes
    requires r.Resp?
  {
    if Continues(r, o, |onDisk|) then onDisk + Rest(server, o, r, |onDisk|).data
    else if r.length.Some? && |Arrives(r, o)| < r.length.value then
      Arrives(r, o) + Rest(server, o, r, |Arrives(r, o)|).data
    else Arrives(r, o)
  }

  /** What the rounds append, save that a round past the cap is cut at it. */
  predicate Appended(e: End, start: Bytes, bytes: Bytes) {
    e.why != PastCap ==> bytes == start + e.data
  }

  /** What a 200 leaves behind, whatever its code: the old bytes when it is refused, the part continued, or first bytes
      of its body and what the rounds brought behind the whole of it. */
  predicate Leaves(server: Server, r: Resp, o: Order, onDisk: Bytes, bytes: Bytes)
    requires r.Resp?
  {
    if Refusal(r, o, |onDisk|).Some? then bytes == onDisk
    else if Continues(r, o, |onDisk|) then Appended(Rest(server, o, r, |onDisk|), onDisk, bytes)
    else
      var arrived := Arrives(r, o);
      || bytes <= arrived
      || (r.length.Some? && |arrived| < r.length.value && Appended(Rest(server, o, r, |arrived|), arrived, bytes))
  }

  /** Stream a body that is not yet on disk: a file is truncated first. */
  method Receive(server: Server, r: Resp, o: Order, out: Output) returns (code: Code, total: nat, kept: bool,
                 ranges: nat)
    requires r.Resp? && Refusal(r, o, 0).None? && (o.pipe ==> out.bytes == [])
    modifies out
    ensures code == Landed(server, r, o, 0)
    ensures code == OK ==> out.bytes == Payload(server, r, o, []) && out.fed == out.bytes && total == |out.bytes|
    ensures |out.bytes| <= o.cap && out.fed == out.bytes && ranges <= MAX_RESUMES
    ensures !Continues(r, o, 0) && Leaves(server, r, o, [], out.bytes)
    ensures kept == (o.pipe || code in {OK, RAISED})
  {
    hide Rounds;
    kept, ranges := true, 0;
    out.bytes, out.fed := [], [];
    var body := new Body(r.data, r.broken, o.fault);
    var s, n := Stream(body, out, o.cap, 0);
    var arrived := Arrives(r, o);
    total := s.count;
    if s.Over? { return OVER_CAP, total, o.pipe, 0; }
    assert arrived[..n] == arrived;
    assert [] + arrived == arrived;
    if s.Broke? && (!o.pipe || r.length.None?) { return HTTP_FAILED, total, o.pipe, 0; }
    if r.length.Some? && total < r.length.value {
      var have, why, sent, x := Resume(server, out, total, r.length.value, o.cap);
      ranges, total := sent, have;
      if why != Whole { return Failed(why), total, o.pipe || why == Raised, ranges; }
    }
    if r.length.Some? && total != r.length.value { return HTTP_FAILED, total, o.pipe, ranges; }
    code := OK;
  }

  /** A file that was streamed and did not land is taken away; what was there, or was continued, stays. */
  predicate Removed(r: Resp, o: Order, onDisk: nat, code: Code) {
    && r.Resp? && r.status == 200 && Refusal(r, o, onDisk).None? && !Continues(r, o, onDisk)
    && !o.pipe && code in {HTTP_FAILED, OVER_CAP}
  }

  /** A 200 answer: refuse it, continue an earlier run's part, or stream it. */
  method Land(server: Server, r: Resp, o: Order, out: Output) returns (code: Code, total: nat, kept: bool, ranges: nat)
    requires r.Resp? && (o.pipe ==> out.bytes == [])
    modifies out
    ensures code == Landed(server, r, o, |old(out.bytes)|)
    ensures code == OK ==>
      out.bytes == Payload(server, r, o, old(out.bytes)) && out.fed == out.bytes && total == |out.bytes|
    ensures Leaves(server, r, o, old(out.bytes), out.bytes)
    ensures out.bytes == old(out.bytes) || |out.bytes| <= o.cap
    ensures (out.bytes == old(out.bytes) && out.fed == old(out.fed)) || out.fed == out.bytes
    ensures ranges <= MAX_RESUMES
    ensures r.status == 200 ==> (!kept <==> Removed(r, o, |old(out.bytes)|, code))
  {
    hide Rounds, PassesCap, Arrives;
    kept, ranges, total := true, 0, 0;
    var refusal := Refusal(r, o, |out.bytes|);
    if refusal.Some? { return refusal.value, 0, true, 0; }
    if Continues(r, o, |out.bytes|) {
      out.fed := out.bytes;
      var have, why, sent, x := Resume(server, out, |out.bytes|, r.length.value, o.cap);
      ranges, total := sent, have;
      code := if why == Whole then OK else Failed(why);
      return;
    }
    code, total, kept, ranges := Receive(server, r, o, out);
  }

  // ------------------------------------------------------------------ the requests, in order

  datatype Event = Cdx(url: Url, asks: bool) | Robots(url: Url, verdict: Verdict) | Get(url: Url) | Range(url: Url)

  predicate Asks(e: Event) {
    e.Get? || e.Range?
  }

  /** The CDX check and then the robots check of the url were passed at j. */
  ghost predicate PassedAt(trace: seq<Event>, j: nat, url: Url) {
    0 < j < |trace| && trace[j - 1] == Cdx(url, false) && trace[j] == Robots(url, Allowed)
  }

  ghost predicate OnlyAsks(trace: seq<Event>, from: nat, to: nat, url: Url)
    requires to <= |trace|
  {
    forall k :: from <= k < to ==> Asks(trace[k]) && trace[k].url == url
  }

  /** The url's checks, in that order, were the last checks made before place i. */
  ghost predicate ClearedBefore(trace: seq<Event>, i: nat, url: Url)
    requires i <= |trace|
  {
    exists j: nat :: j < i && PassedAt(trace, j, url) && OnlyAsks(trace, j + 1, i, url)
  }

  ghost predicate Cleared(trace: seq<Event>, url: Url) {
    ClearedBefore(trace, |trace|, url)
  }

  ghost predicate FollowsCdx(trace: seq<Event>, i: nat, url: Url)
    requires i < |trace|
  {
    i > 0 && trace[i - 1] == Cdx(url, false)
  }

  /** No url is asked for before its own checks, and no robots.txt is read of a url that asks the CDX. */
  ghost predicate Governed(trace: seq<Event>) {
    && (forall i :: 0 <= i < |trace| && Asks(trace[i]) ==> ClearedBefore(trace, i, trace[i].url))
    && (forall i :: 0 <= i < |trace| && trace[i].Robots? ==> FollowsCdx(trace, i, trace[i].url))
  }

  function CountGets(trace: seq<Event>): nat {
    if trace == [] then 0 else CountGets(trace[..|trace| - 1]) + if trace[|trace| - 1].Get? then 1 else 0
  }

  function CountRanges(trace: seq<Event>): nat {
    if trace == [] then 0 else CountRanges(trace[..|trace| - 1]) + if trace[|trace| - 1].Range? then 1 else 0
  }

  /** A check once passed before place i stays passed as the trace grows. */
  lemma StillCleared(trace: seq<Event>, e: Event, i: nat, url: Url)
    requires i <= |trace| && ClearedBefore(trace, i, url)
    ensures ClearedBefore(trace + [e], i, url)
  {
    var j: nat :| j < i && PassedAt(trace, j, url) && OnlyAsks(trace, j + 1, i, url);
    assert PassedAt(trace + [e], j, url) && OnlyAsks(trace + [e], j + 1, i, url);
  }

  lemma GovernedNext(trace: seq<Event>, e: Event)
    requires Governed(trace)
    requires Asks(e) ==> Cleared(trace, e.url)
    requires e.Robots? ==> trace != [] && trace[|trace| - 1] == Cdx(e.url, false)
    ensures Governed(trace + [e])
    ensures CountGets(trace + [e]) == CountGets(trace) + (if e.Get? then 1 else 0)
    ensures CountRanges(trace + [e]) == CountRanges(trace) + (if e.Range? then 1 else 0)
  {
    var t := trace + [e];
    assert t[..|trace|] == trace;
    forall i | 0 <= i < |t| && Asks(t[i]) ensures ClearedBefore(t, i, t[i].url) {
      StillCleared(trace, e, i, t[i].url);
    }
    forall i | 0 <= i < |t| && t[i].Robots? ensures FollowsCdx(t, i, t[i].url) {
      assert i < |trace| ==> FollowsCdx(trace, i, trace[i].url);
    }
  }

  lemma StillAsks(t: seq<Event>, i: nat, url: Url)
    requires i < |t| && ClearedBefore(t, i, url) && Asks(t[i]) && t[i].url == url
    ensures ClearedBefore(t, i + 1, url)
  {
    var j: nat :| j < i && PassedAt(t, j, url) && OnlyAsks(t, j + 1, i, url);
    assert OnlyAsks(t, j + 1, i + 1, url);
  }

  lemma ClearedAsk(trace: seq<Event>, e: Event)
    requires Governed(trace) && Asks(e) && Cleared(trace, e.url)
    ensures Governed(trace + [e]) && Cleared(trace + [e], e.url)
    ensures CountGets(trace + [e]) == CountGets(trace) + (if e.Get? then 1 else 0)
    ensures CountRanges(trace + [e]) == CountRanges(trace) + (if e.Range? then 1 else 0)
  {
    hide Governed, CountGets, CountRanges, ClearedBefore;
    GovernedNext(trace, e);
    StillCleared(trace, e, |trace|, e.url);
    StillAsks(trace + [e], |trace|, e.url);
  }

  lemma ClearedRobots(trace: seq<Event>, url: Url)
    requires trace != [] && trace[|trace| - 1] == Cdx(url, false)
    ensures Cleared(trace + [Robots(url, Allowed)], url)
  {
    var t := trace + [Robots(url, Allowed)];
    assert PassedAt(t, |trace|, url) && OnlyAsks(t, |trace| + 1, |t|, url);
  }

  function Ranges(url: Url, n: nat): seq<Event> {
    if n == 0 then [] else [Range(url)] + Ranges(url, n - 1)
  }

  /** The range requests a continuation sent, in the trace. */
  lemma {:induction false} GovernedRanges(trace: seq<Event>, url: Url, n: nat)
    requires Governed(trace) && Cleared(trace, url)
    ensures Governed(trace + Ranges(url, n)) && CountGets(trace + Ranges(url, n)) == CountGets(trace)
    ensures CountRanges(trace + Ranges(url, n)) == CountRanges(trace) + n
    decreases n
  {
    hide Governed, Cleared;
    if n == 0 {
      assert trace + [] == trace;
    } else {
      ClearedAsk(trace, Range(url));
      GovernedRanges(trace + [Range(url)], url, n - 1);
      assert trace + Ranges(url, n) == trace + [Range(url)] + Ranges(url, n - 1);
    }
  }

  // ------------------------------------------------------------------ the loops

  datatype Receipt = Receipt(code: Code, total: nat, kept: bool)

  /** The response an OK receipt rests on: one get of a url answered 200 and landed. */
  ghost predicate LandedOk(web: Web, o: Order, onDisk: Bytes, url: Url, n: nat, bytes: Bytes) {
    var r := web.get(n, url);
    r.Resp? && r.status == 200 && Landed(web.range(url), r, o, |onDisk|) == OK
    && bytes == Payload(web.range(url), r, o, onDisk)
  }

  /** What is left behind rests on one get of the url answered 200, or is what was there. */
  ghost predicate LeftBy(web: Web, o: Order, onDisk: Bytes, url: Url, bytes: Bytes) {
    bytes == onDisk || exists n: nat :: LeftAt(web, o, onDisk, url, n, bytes)
  }

  ghost predicate LeftAt(web: Web, o: Order, onDisk: Bytes, url: Url, n: nat, bytes: Bytes) {
    var r := web.get(n, url);
    r.Resp? && r.status == 200 && Leaves(web.range(url), r, o, onDisk, bytes)
  }

  /** How the attempts at one url end: with a code or a redirect, after so many requests in all. */
  datatype Tried = Answered(code: Code, gets: nat) | Redirected(to: Url, gets: nat)

  /** The attempts from this one on, the n-th request being next. */
  function Tries(web: Web, url: Url, o: Order, onDisk: nat, n: nat, attempt: nat): Tried
    decreases ATTEMPTS - attempt
  {
    var r := web.get(n, url);
    if r.NoResp? then Answered(HTTP_FAILED, n + 1)
    else if r.status in RETRY_STATUS && attempt < ATTEMPTS then
      if r.retryAfter.Some? && r.retryAfter.value > MAX_SLEEP_SECONDS then Answered(HTTP_FAILED, n + 1)
      else Tries(web, url, o, onDisk, n + 1, attempt + 1)
    else if r.status in REDIRECTS && r.location.Some? then Redirected(r.location.value, n + 1)
    else if r.status != 200 then Answered(HTTP_FAILED, n + 1)
    else Answered(Landed(web.range(url), r, o, onDisk), n + 1)
  }

  /** The code of a fetch, each url checked before it is tried. */
  function Followed(web: Web, url: Url, o: Order, onDisk: nat, n: nat, hops: nat): (Code, nat)
    decreases MAX_HOPS - hops
  {
    if web.asksCdx(url) then (CDX_REFUSED, n)
    else
      match web.robots(url)
      case Disallowed => (ROBOTS_REFUSED, n)
      case Unknown => (ROBOTS_UNREADABLE, n)
      case Allowed =>
        match Tries(web, url, o, onDisk, n, 1)
        case Answered(code, gets) => (code, gets)
        case Redirected(to, gets) =>
          if hops >= MAX_HOPS || !web.http(to) then (HTTP_FAILED, gets)
          else Followed(web, to, o, onDisk, gets, hops + 1)
  }

  /** Ask one cleared url up to ATTEMPTS times: a receipt, or the redirect to follow. */
  method TryUrl(web: Web, url: Url, o: Order, out: Output, trace0: seq<Event>)
    returns (receipt: Receipt, next: Option<Url>, trace: seq<Event>)
    requires Governed(trace0) && Cleared(trace0, url) && (o.pipe ==> out.bytes == [])
    modifies out
    ensures var t := Tries(web, url, o, |old(out.bytes)|, CountGets(trace0), 1);
      && (next.Some? <==> t.Redirected?) && (next.Some? ==> next.value == t.to)
      && (next.None? ==> receipt.code == t.code) && CountGets(trace) == t.gets
    ensures Governed(trace) && CountGets(trace) <= CountGets(trace0) + ATTEMPTS
    ensures CountRanges(trace) <= CountRanges(trace0) + if next.Some? then 0 else MAX_RESUMES
    ensures next.Some? ==> out.bytes == old(out.bytes)
    ensures next.None? && receipt.code == OK ==> out.fed == out.bytes && receipt.total == |out.bytes|
    ensures CountGets(trace) > CountGets(trace0)
    ensures next.Some? ==> var r := web.get(CountGets(trace) - 1, url); r.Resp? && r.status != 200
    ensures next.None? && receipt.code == OK ==>
      LandedOk(web, o, old(out.bytes), url, CountGets(trace) - 1, out.bytes)
    ensures next.None? ==>
      (!receipt.kept <==> Removed(web.get(CountGets(trace) - 1, url), o, |old(out.bytes)|, receipt.code))
    ensures LeftBy(web, o, old(out.bytes), url, out.bytes)
    ensures out.bytes == old(out.bytes) || |out.bytes| <= o.cap
    ensures (out.bytes == old(out.bytes) && out.fed == old(out.fed)) || (next.None? && out.fed == out.bytes)
  {
    hide Landed, Payload, Leaves, Governed, Cleared, CountGets, CountRanges, Refusal, Continues;
    next, trace, receipt := None, trace0, Receipt(HTTP_FAILED, 0, true);
    for attempt := 1 to ATTEMPTS + 1
      invariant Governed(trace) && Cleared(trace, url) && out.bytes == old(out.bytes) && out.fed == old(out.fed)
      invariant CountGets(trace) == CountGets(trace0) + attempt - 1 && CountRanges(trace) == CountRanges(trace0)
      invariant attempt <= ATTEMPTS
      invariant Tries(web, url, o, |out.bytes|, CountGets(trace), attempt) ==
                Tries(web, url, o, |out.bytes|, CountGets(trace0), 1)
    {
      var n := CountGets(trace);
      var r := web.get(n, url);
      ClearedAsk(trace, Get(url));
      trace := trace + [Get(url)];
      if r.NoResp? { return; }
      if r.status in RETRY_STATUS && attempt < ATTEMPTS {
        if r.retryAfter.Some? && r.retryAfter.value > MAX_SLEEP_SECONDS { return; }
        continue;
      }
      if r.status in REDIRECTS && r.location.Some? { return receipt, r.location, trace; }
      if r.status != 200 { return; }
      var code, total, kept, ranges := Land(web.range(url), r, o, out);
      GovernedRanges(trace, url, ranges);
      trace := trace + Ranges(url, ranges);
      receipt := Receipt(code, total, kept);
      assert code == OK ==> LandedOk(web, o, old(out.bytes), url, n, out.bytes);
      assert LeftAt(web, o, old(out.bytes), url, n, out.bytes);
      return;
    }
    // every path of the last attempt returns: the throttled receipt after the loop is never given
    assert false;
  }

  lemma NoEvents()
    ensures Governed([]) && CountGets([]) == CountRanges([]) == 0
  {
  }

  /** Fetch a url, its redirects included. */
  method Fetch(web: Web, start: Url, o: Order, out: Output)
    returns (receipt: Receipt, trace: seq<Event>, ghost landed: Url)
    requires o.pipe ==> out.bytes == []
    modifies out
    ensures (receipt.code, CountGets(trace)) == Followed(web, start, o, |old(out.bytes)|, 0, 0)
    ensures Governed(trace)
    ensures CountGets(trace) <= (MAX_HOPS + 1) * ATTEMPTS && CountRanges(trace) <= MAX_RESUMES
    ensures receipt.code == OK ==> out.fed == out.bytes && receipt.total == |out.bytes|
    ensures receipt.code in {OK, HTTP_FAILED, OVER_CAP, BAD_TYPE, USAGE, RAISED} ==> CountGets(trace) > 0
    ensures receipt.code == OK ==> LandedOk(web, o, old(out.bytes), landed, CountGets(trace) - 1, out.bytes)
    ensures !receipt.kept <==>
      CountGets(trace) > 0 && Removed(web.get(CountGets(trace) - 1, landed), o, |old(out.bytes)|, receipt.code)
    ensures LeftBy(web, o, old(out.bytes), landed, out.bytes)
    ensures out.bytes == old(out.bytes) || |out.bytes| <= o.cap
    ensures (out.bytes == old(out.bytes) && out.fed == old(out.fed)) || out.fed == out.bytes
  {
    hide Tries, Landed, LandedOk, LeftAt, Governed, Cleared, CountGets, CountRanges, Refusal, Continues;
    NoEvents();
    var url, hops := start, 0;
    trace, landed := [], start;
    while true
      invariant 0 <= hops <= MAX_HOPS && Governed(trace) && out.bytes == old(out.bytes) && out.fed == old(out.fed)
      invariant CountGets(trace) <= hops * ATTEMPTS && CountRanges(trace) == 0
      invariant Followed(web, url, o, |out.bytes|, CountGets(trace), hops) ==
                Followed(web, start, o, |out.bytes|, 0, 0)
      decreases MAX_HOPS - hops
    {
      landed := url;
      var asks := web.asksCdx(url);
      GovernedNext(trace, Cdx(url, asks));
      trace := trace + [Cdx(url, asks)];
      if asks { return Receipt(CDX_REFUSED, 0, true), trace, landed; }
      var v := web.robots(url);
      GovernedNext(trace, Robots(url, v));
      if v.Allowed? { ClearedRobots(trace, url); }
      trace := trace + [Robots(url, v)];
      if v.Disallowed? { return Receipt(ROBOTS_REFUSED, 0, true), trace, landed; }
      if v.Unknown? { return Receipt(ROBOTS_UNREADABLE, 0, true), trace, landed; }
      var next;
      receipt, next, trace := TryUrl(web, url, o, out, trace);
      if next.None? { return; }
      hops := hops + 1;
      if hops > MAX_HOPS || !web.http(next.value) { return Receipt(HTTP_FAILED, 0, true), trace, landed; }
      url := next.value;
    }
  }

  // ------------------------------------------------------------------ how a fetch ends, from the answers alone

  /** A throttle that asks for no long wait. */
  predicate Patient(r: Resp) {
    && r.Resp? && (r.status == 429 || r.status == 503 || r.status == 504)
    && (r.retryAfter.Some? ==> r.retryAfter.value <= 300)
  }

  predicate Redirects(r: Resp) {
    && r.Resp? && r.location.Some?
    && (r.status == 301 || r.status == 302 || r.status == 303 || r.status == 307 || r.status == 308)
  }

  /** Of the answers from the n-th on, k throttles are waited out before the one that counts; at most three are. */
  ghost predicate Waited(web: Web, url: Url, n: nat, k: nat) {
    k <= 3 && (forall i :: n <= i < n + k ==> Patient(web.get(i, url))) && (k < 3 ==> !Patient(web.get(n + k, url)))
  }

  /** The continuation from byte `have` ends so, with `last` bytes at hand. */
  ghost predicate ContinuedTo(server: Server, cap: nat, declared: nat, have: nat, why: Why, last: nat) {
    exists h :: EndedBy(server, cap, declared, have, 0, 200, h, why) && h[|h| - 1] == last
  }

  /** What continues is a file's part on disk, shorter than the declared length. */
  predicate PartOnDisk(r: Resp, o: Order, onDisk: nat)
    requires r.Resp?
  {
    !o.pipe && 0 < onDisk && r.length.Some? && onDisk < r.length.value
  }

  /** No declared length passes the cap, and the content type is taken. */
  predicate Accepted(r: Resp, o: Order)
    requires r.Resp?
  {
    (r.length.Some? ==> r.length.value <= o.cap) && r.typeOk
  }

  /** A drop that is asked for leaves something to continue. */
  predicate Droppable(r: Resp, o: Order)
    requires r.Resp?
  {
    o.fault.Some? ==> r.length.Some? && o.fault.value < r.length.value
  }

  /** The body is streamed and not refused, and if it breaks the rest can be asked for. */
  predicate Streams(r: Resp, o: Order, onDisk: nat)
    requires r.Resp?
  {
    && Accepted(r, o) && !PartOnDisk(r, o, onDisk) && Droppable(r, o) && |Arrives(r, o)| <= o.cap
    && (Breaks(r, o) ==> o.pipe && r.length.Some?)
  }

  /** A 200 is OK: the part on disk is continued to the end; or the body is whole, by its declared length or for want
      of one; or it is continued to exactly the declared length. */
  ghost predicate LandsOk(server: Server, r: Resp, o: Order, onDisk: nat)
    requires r.Resp?
  {
    || (Accepted(r, o) && PartOnDisk(r, o, onDisk) &&
        exists last :: ContinuedTo(server, o.cap, r.length.value, onDisk, Whole, last))
    || (Streams(r, o, onDisk) &&
        var n := |Arrives(r, o)|;
        || r.length.None? || n == r.length.value
        || (n < r.length.value && ContinuedTo(server, o.cap, r.length.value, n, Whole, r.length.value)))
  }

  /** The request for a span raises, and nothing catches it. */
  ghost predicate LandsRaised(server: Server, r: Resp, o: Order, onDisk: nat)
    requires r.Resp?
  {
    exists last ::
      || (Accepted(r, o) && PartOnDisk(r, o, onDisk) &&
          ContinuedTo(server, o.cap, r.length.value, onDisk, Raised, last))
      || (Streams(r, o, onDisk) && r.length.Some? && |Arrives(r, o)| < r.length.value &&
          ContinuedTo(server, o.cap, r.length.value, |Arrives(r, o)|, Raised, last))
  }

  predicate LandsOver(r: Resp, o: Order, onDisk: nat)
    requires r.Resp?
  {
    || (r.length.Some? && r.length.value > o.cap)
    || (r.typeOk && !PartOnDisk(r, o, onDisk) && Droppable(r, o) && |Arrives(r, o)| > o.cap)
  }

  /** The code a 200 lands with. */
  ghost predicate LandsAs(server: Server, r: Resp, o: Order, onDisk: nat, code: Code)
    requires r.Resp?
  {
    match code
    case OK => LandsOk(server, r, o, onDisk)
    case OVER_CAP => LandsOver(r, o, onDisk)
    case BAD_TYPE => (r.length.Some? ==> r.length.value <= o.cap) && !r.typeOk
    case USAGE => Accepted(r, o) && !PartOnDisk(r, o, onDisk) && !Droppable(r, o)
    case RAISED => LandsRaised(server, r, o, onDisk)
    case HTTP_FAILED =>
      && Accepted(r, o) && (PartOnDisk(r, o, onDisk) || Droppable(r, o))
      && !LandsOver(r, o, onDisk) && !LandsOk(server, r, o, onDisk) && !LandsRaised(server, r, o, onDisk)
    case _ => false
  }

  lemma RestIs(server: Server, o: Order, r: Resp, have: nat, why: Why, last: nat)
    requires r.Resp? && r.length.Some?
    ensures var e := Rest(server, o, r, have);
      e.why == why && e.have == last <==> ContinuedTo(server, o.cap, r.length.value, have, why, last)
  {
    var cap, declared := o.cap, r.length.value;
    RoundsEnd(server, cap, declared, have, 0, MAX_RESUMES, why);
    hide Rounds;
    if h :| EndedBy(server, cap, declared, have, 0, 200, h, why) && h[|h| - 1] == last {
      assert Rest(server, o, r, have) == EndOf(server, declared, 0, h, why);
    }
    if Rest(server, o, r, have).why == why && Rest(server, o, r, have).have == last {
      var h :| EndedBy(server, cap, declared, have, 0, 200, h, why);
      assert Rest(server, o, r, have) == EndOf(server, declared, 0, h, why);
    }
  }

  /** A 200 lands with a code if and only if its headers, its body and the replies that continue it say so. */
  lemma LandedFits(server: Server, r: Resp, o: Order, onDisk: nat, code: Code)
    requires r.Resp?
    ensures Landed(server, r, o, onDisk) == code <==> LandsAs(server, r, o, onDisk, code)
  {
    hide Rounds, Arrives, ContinuedTo, EndedBy;
    if r.length.Some? {
      var have := if PartOnDisk(r, o, onDisk) then onDisk else |Arrives(r, o)|;
      var e := Rest(server, o, r, have);
      forall why, last ensures e.why == why && e.have == last <==>
                               ContinuedTo(server, o.cap, r.length.value, have, why, last)
      {
        RestIs(server, o, r, have, why, last);
      }
      assert ContinuedTo(server, o.cap, r.length.value, have, e.why, e.have);
    }
  }

  /** The attempts at one url end with the answer that counts. */
  lemma {:induction false} TriesFrom(web: Web, url: Url, o: Order, onDisk: nat, n: nat, attempt: nat, k: nat)
    requires 1 <= attempt <= 4 && attempt + k <= 4
    requires forall i :: n <= i < n + k ==> Patient(web.get(i, url))
    requires attempt + k < 4 ==> !Patient(web.get(n + k, url))
    ensures TriedBy(web, url, o, onDisk, n + k, Tries(web, url, o, onDisk, n, attempt))
    decreases k
  {
    hide Landed;
    if k > 0 {
      assert Patient(web.get(n, url));
      TriesFrom(web, url, o, onDisk, n + 1, attempt + 1, k - 1);
    }
  }

  /** What the n-th answer makes of an attempt when it counts. */
  ghost predicate TriedBy(web: Web, url: Url, o: Order, onDisk: nat, n: nat, t: Tried) {
    var r := web.get(n, url);
    && t.gets == n + 1
    && (t.Redirected? <==> Redirects(r)) && (t.Redirected? ==> Some(t.to) == r.location)
    && (t.Answered? && r.Resp? && r.status == 200 ==> t.code == Landed(web.range(url), r, o, onDisk))
    && (t.Answered? && (r.NoResp? || r.status != 200) ==> t.code == HTTP_FAILED)
  }

  lemma WaitedExists(web: Web, url: Url, n: nat) returns (k: nat)
    ensures Waited(web, url, n, k)
  {
    k := 0;
    while k < 3 && Patient(web.get(n + k, url))
      invariant k <= 3 && forall i :: n <= i < n + k ==> Patient(web.get(i, url))
    {
      k := k + 1;
    }
  }

  lemma TriesFit(web: Web, url: Url, o: Order, onDisk: nat, n: nat, k: nat)
    requires Waited(web, url, n, k)
    ensures TriedBy(web, url, o, onDisk, n + k, Tries(web, url, o, onDisk, n, 1))
  {
    TriesFrom(web, url, o, onDisk, n, 1, k);
  }

  // ------------------------------------------------------------------ over the redirects

  /** One url on the way: its first get has this number, and so many throttles were waited out. */
  datatype Leg = Leg(url: Url, first: nat, throttles: nat)

  function Counts(web: Web, l: Leg): Resp {
    web.get(l.first + l.throttles, l.url)
  }

  /** The url passed both checks, and the answer that counts redirects to the next one. */
  ghost predicate Leads(web: Web, l: Leg, m: Leg) {
    && !web.asksCdx(l.url) && web.robots(l.url).Allowed? && Waited(web, l.url, l.first, l.throttles)
    && Redirects(Counts(web, l)) && Counts(web, l).location == Some(m.url) && web.http(m.url)
    && m.first == l.first + l.throttles + 1
  }

  ghost predicate Trip(web: Web, url: Url, n: nat, legs: seq<Leg>) {
    && legs != [] && legs[0].url == url && legs[0].first == n
    && forall i :: 0 <= i < |legs| - 1 ==> Leads(web, legs[i], legs[i + 1])
  }

  /** The last url ends the fetch with this code, after so many gets; `left` redirects could still be followed. */
  ghost predicate Closes(web: Web, o: Order, onDisk: nat, l: Leg, left: nat, code: Code, gets: nat) {
    if web.asksCdx(l.url) then code == CDX_REFUSED && gets == l.first
    else if web.robots(l.url).Disallowed? then code == ROBOTS_REFUSED && gets == l.first
    else if web.robots(l.url).Unknown? then code == ROBOTS_UNREADABLE && gets == l.first
    else
      var r := Counts(web, l);
      && Waited(web, l.url, l.first, l.throttles) && gets == l.first + l.throttles + 1
      && (Redirects(r) ==> code == HTTP_FAILED && (left == 0 || !web.http(r.location.value)))
      && (!Redirects(r) && r.Resp? && r.status == 200 ==> LandsAs(web.range(l.url), r, o, onDisk, code))
      && (!Redirects(r) && (r.NoResp? || r.status != 200) ==> code == HTTP_FAILED)
  }

  /** Some way of at most `left` redirects ends so. */
  ghost predicate EndsAs(web: Web, url: Url, o: Order, onDisk: nat, n: nat, left: nat, code: Code, gets: nat) {
    exists legs :: Reaches(web, url, o, onDisk, n, left, legs, code, gets)
  }

  ghost predicate Reaches(web: Web, url: Url, o: Order, onDisk: nat, n: nat, left: nat, legs: seq<Leg>, code: Code,
                          gets: nat) {
    && Trip(web, url, n, legs) && |legs| <= left + 1
    && Closes(web, o, onDisk, legs[|legs| - 1], left + 1 - |legs|, code, gets)
  }

  /** The fetch stops at this url. */
  lemma StopsThere(web: Web, url: Url, o: Order, onDisk: nat, n: nat, hops: nat, k: nat, code: Code, gets: nat)
    requires hops <= 5 && Waited(web, url, n, k)
    requires var l := Leg(url, n, k);
      !(web.robots(url).Allowed? && !web.asksCdx(url) && Redirects(Counts(web, l)) && hops < 5
        && web.http(Counts(web, l).location.value))
    ensures Closes(web, o, onDisk, Leg(url, n, k), 5 - hops, code, gets) <==>
            Followed(web, url, o, onDisk, n, hops) == (code, gets)
  {
    hide Tries, Landed, LandsAs, Redirects, Waited;
    TriesFit(web, url, o, onDisk, n, k);
    var r := web.get(n + k, url);
    if r.Resp? { LandedFits(web.range(url), r, o, onDisk, code); }
  }

  /** The fetch goes on to the next url. */
  lemma GoesOn(web: Web, url: Url, o: Order, onDisk: nat, n: nat, hops: nat, k: nat)
    requires hops < 5 && Waited(web, url, n, k) && web.robots(url).Allowed? && !web.asksCdx(url)
    requires Redirects(web.get(n + k, url)) && web.http(web.get(n + k, url).location.value)
    ensures Followed(web, url, o, onDisk, n, hops) ==
            Followed(web, web.get(n + k, url).location.value, o, onDisk, n + k + 1, hops + 1)
  {
    hide Tries, Landed, Redirects, Waited;
    TriesFit(web, url, o, onDisk, n, k);
  }

  lemma {:induction false} WayIsFollowed(web: Web, url: Url, o: Order, onDisk: nat, n: nat, hops: nat, legs: seq<Leg>,
                                         code: Code, gets: nat)
    requires hops <= 5 && Reaches(web, url, o, onDisk, n, 5 - hops, legs, code, gets)
    ensures Followed(web, url, o, onDisk, n, hops) == (code, gets)
    decreases |legs|
  {
    hide Followed, LandsAs, Waited, Redirects;
    var l := legs[0];
    if |legs| == 1 {
      var k := l.throttles;
      if web.asksCdx(url) || !web.robots(url).Allowed? {
        k := WaitedExists(web, url, n);
        assert Closes(web, o, onDisk, Leg(url, n, k), 5 - hops, code, gets);
      }
      StopsThere(web, url, o, onDisk, n, hops, k, code, gets);
    } else {
      var m := legs[1];
      assert Leads(web, legs[0], legs[0 + 1]);
      GoesOn(web, url, o, onDisk, n, hops, l.throttles);
      forall i | 0 <= i < |legs[1..]| - 1 ensures Leads(web, legs[1..][i], legs[1..][i + 1]) {
        assert Leads(web, legs[i + 1], legs[i + 1 + 1]);
      }
      WayIsFollowed(web, m.url, o, onDisk, m.first, hops + 1, legs[1..], code, gets);
    }
  }

  lemma {:induction false} FollowedHasWay(web: Web, url: Url, o: Order, onDisk: nat, n: nat, hops: nat)
    returns (legs: seq<Leg>)
    requires hops <= 5
    ensures var (code, gets) := Followed(web, url, o, onDisk, n, hops);
      Reaches(web, url, o, onDisk, n, 5 - hops, legs, code, gets)
    decreases 5 - hops
  {
    hide Followed, LandsAs, Waited, Redirects;
    var k := WaitedExists(web, url, n);
    var l, r := Leg(url, n, k), web.get(n + k, url);
    var (code, gets) := Followed(web, url, o, onDisk, n, hops);
    if web.robots(url).Allowed? && !web.asksCdx(url) && Redirects(r) && hops < 5 && Located(r)
       && web.http(r.location.value) {
      GoesOn(web, url, o, onDisk, n, hops, k);
      var rest := FollowedHasWay(web, r.location.value, o, onDisk, n + k + 1, hops + 1);
      legs := [l] + rest;
      forall i | 0 <= i < |legs| - 1 ensures Leads(web, legs[i], legs[i + 1]) {
        if i > 0 { assert Leads(web, rest[i - 1], rest[i - 1 + 1]); }
      }
    } else {
      RedirectsLocated(r);
      legs := [l];
      StopsThere(web, url, o, onDisk, n, hops, k, code, gets);
    }
  }

  predicate Located(r: Resp) {
    r.Resp? && r.location.Some?
  }

  lemma RedirectsLocated(r: Resp)
    ensures Redirects(r) ==> Located(r)
  {
  }

  /** How a fetch ends, from the answers alone: with a code after so many gets if and only if some way does, of at most
      five redirects and on each url at most three throttles waited out. */
  lemma FetchEnds(web: Web, start: Url, o: Order, onDisk: nat, code: Code, gets: nat)
    ensures Followed(web, start, o, onDisk, 0, 0) == (code, gets) <==> EndsAs(web, start, o, onDisk, 0, 5, code, gets)
  {
    hide Followed, Reaches;
    var legs := FollowedHasWay(web, start, o, onDisk, 0, 0);
    if legs :| Reaches(web, start, o, onDisk, 0, 5, legs, code, gets) {
      WayIsFollowed(web, start, o, onDisk, 0, 0, legs, code, gets);
    }
  }

  // ------------------------------------------------------------------ what is left behind, and what OK means

  /** The url's artifact: a declared length is its own, a body is its first bytes, a 206 the span asked. */
  ghost predicate Serves(web: Web, url: Url, artifact: Bytes) {
    && HonestServer(web.range(url), artifact)
    && (forall n: nat :: web.get(n, url).Resp? && web.get(n, url).status == 200 ==>
          && web.get(n, url).data <= artifact
          && (web.get(n, url).length.Some? ==> web.get(n, url).length.value == |artifact|))
  }

  /** Fewer bytes than the artifact has are its first ones. */
  ghost predicate PartOf(bytes: Bytes, artifact: Bytes) {
    |bytes| < |artifact| ==> bytes <= artifact
  }

  /** A body continued by the rounds is the first bytes of the artifact. */
  lemma ContinuedIsPrefix(server: Server, artifact: Bytes, o: Order, r: Resp, start: Bytes, bytes: Bytes)
    requires HonestServer(server, artifact) && r.Resp? && r.length == Some(|artifact|) && |artifact| <= o.cap
    requires start <= artifact && Appended(Rest(server, o, r, |start|), start, bytes)
    ensures bytes <= artifact
  {
    hide Rounds;
    RoundsExact(server, artifact, o.cap, |start|, 0, 0, MAX_RESUMES);
    var e := Rest(server, o, r, |start|);
    assert start == artifact[..|start|];
    assert artifact[..e.have] == artifact[..|start|] + artifact[|start|..e.have];
  }

  /** Whatever its code, a fetch leaves the first bytes of the artifact, or what was there; so a part that is kept
      is one that the next fetch can continue. */
  lemma LeftIsPrefix(web: Web, o: Order, onDisk: Bytes, url: Url, bytes: Bytes, artifact: Bytes)
    requires LeftBy(web, o, onDisk, url, bytes) && Serves(web, url, artifact) && PartOf(onDisk, artifact)
    ensures bytes == onDisk || bytes <= artifact
    ensures PartOf(bytes, artifact)
  {
    if bytes != onDisk {
      var n: nat :| LeftAt(web, o, onDisk, url, n, bytes);
      var server, r := web.range(url), web.get(n, url);
      if Continues(r, o, |onDisk|) {
        ContinuedIsPrefix(server, artifact, o, r, onDisk, bytes);
      } else if !(bytes <= Arrives(r, o)) {
        ContinuedIsPrefix(server, artifact, o, r, Arrives(r, o), bytes);
      }
    }
  }

  /** What one fetch can make of the file: what its contract says, or the first bytes of that when it is killed while
      it writes, or none when it removes the file. */
  ghost predicate FileStep(url: Url, artifact: Bytes, was: Bytes, now: Bytes) {
    exists web, o, bytes :: WritesTo(web, o, url, artifact, was, bytes) && now <= bytes
  }

  ghost predicate WritesTo(web: Web, o: Order, url: Url, artifact: Bytes, was: Bytes, bytes: Bytes) {
    Serves(web, url, artifact) && LeftBy(web, o, was, url, bytes)
  }

  /** Over any number of fetches, killed or not, of an artifact that stays the same, the file is a part of it that
      the next fetch can continue. */
  lemma {:induction false} FilesKeep(url: Url, artifact: Bytes, files: seq<Bytes>, n: nat)
    requires n < |files| && files[0] == []
    requires forall i :: 0 <= i < |files| - 1 ==> FileStep(url, artifact, files[i], files[i + 1])
    ensures files[n] <= artifact
  {
    if n > 0 {
      FilesKeep(url, artifact, files, n - 1);
      var was, now := files[n - 1], files[n];
      assert FileStep(url, artifact, files[n - 1], files[n - 1 + 1]);
      var web, o, bytes :| WritesTo(web, o, url, artifact, was, bytes) && now <= bytes;
      LeftIsPrefix(web, o, was, url, bytes, artifact);
    }
  }

  /** OK without a declared length leaves the whole body that came. */
  lemma OkIsBody(web: Web, o: Order, onDisk: Bytes, url: Url, n: nat, bytes: Bytes)
    requires LandedOk(web, o, onDisk, url, n, bytes) && web.get(n, url).length.None?
    ensures bytes == web.get(n, url).data && !web.get(n, url).broken && |bytes| <= o.cap
  {
  }

  /** OK with a declared length is the whole artifact: streamed, dropped and continued, or resumed. */
  lemma OkIsWhole(web: Web, o: Order, onDisk: Bytes, url: Url, n: nat, bytes: Bytes, artifact: Bytes)
    requires LandedOk(web, o, onDisk, url, n, bytes) && Serves(web, url, artifact) && PartOf(onDisk, artifact)
    requires web.get(n, url).length.Some?
    ensures bytes == artifact
  {
    hide Rounds;
    var server, r := web.range(url), web.get(n, url);
    assert r.length.value == |artifact| <= o.cap;
    if Continues(r, o, |onDisk|) {
      RoundsExact(server, artifact, o.cap, |onDisk|, 0, 0, MAX_RESUMES);
      WholeReaches(server, o.cap, |artifact|, |onDisk|, 0, 0, MAX_RESUMES);
      assert onDisk == artifact[..|onDisk|];
    } else {
      var a := Arrives(r, o);
      assert a == artifact[..|a|];
      if |a| < |artifact| {
        RoundsExact(server, artifact, o.cap, |a|, 0, 0, MAX_RESUMES);
        WholeReaches(server, o.cap, |artifact|, |a|, 0, 0, MAX_RESUMES);
      }
    }
  }
}
