/** The incremental converter: only new or grown journals are read, and nothing is lost to a crash. */
module SuffixConvert {
  import opened Strings
  import opened Splitting

  // ------------------------------------------------------------------ one line of a journal

  /** A line: not a capture, or a capture with its stamp, url and perhaps a status. */
  datatype Record = Garbage | Capture(stamp: string, url: string, status: Option<string>)

  datatype Key = Key(domain: string, year: string)

  datatype Exact = Exact(key: Key, stamp: string)

  /** The years kept, and the registrable that a host name is, if it is one. */
  datatype Rules = Rules(years: set<string>, registrable: string -> Option<string>)

  predicate Digits(s: string) {
    forall i :: 0 <= i < |s| ==> '0' <= s[i] <= '9'
  }

  function AfterScheme(url: string): string {
    if |url| < 3 then url else if url[..3] == "://" then url[3..]
    else
      var rest := AfterScheme(url[1..]);
      if rest == url[1..] then url else rest
  }

  function Authority(url: string): string {
    var s := AfterScheme(url);
    var upTo := Cut(s);
    var names := Split(upTo, '@');
    Undotted(names[|names| - 1])
  }

  /** What comes before the path, the query or the fragment. */
  function Cut(s: string): string {
    if s == "" || s[0] in {'/', '?', '#'} then "" else [s[0]] + Cut(s[1..])
  }

  function Undotted(s: string): string {
    if s != "" && s[0] == '.' then Undotted(s[1..]) else s
  }

  /** The (registrable, year) a capture dates: its host must be the registrable itself. */
  function ExactOf(r: Record, rules: Rules): Option<Exact> {
    if r.Garbage? || |r.stamp| != 14 || !Digits(r.stamp) || r.stamp[..4] !in rules.years then None
    else if r.status.Some? && (r.status.value == "" || r.status.value[0] !in {'2', '3'}) then None
    else
      var host := rules.registrable(Authority(r.url));
      if host.None? then None else Some(Exact(Key(host.value, r.stamp[..4]), r.stamp))
  }

  // ------------------------------------------------------------------ what a line dates, from its fields

  /** The host part of a url in the form scheme://user@..host/rest, of which only the host must be there. */
  ghost predicate HostPart(url: string, host: string) {
    exists scheme, user, dots, rest :: UrlParts(url, scheme, user, dots, host, rest)
  }

  ghost predicate UrlParts(url: string, scheme: string, user: string, dots: string, host: string, rest: string) {
    && url == scheme + user + dots + host + rest
    && (if scheme == "" then !HasMark(user + dots + host + rest)
        else EndsInMark(scheme) && !HasMark(scheme[..|scheme| - 1]))
    && (user == "" || user[|user| - 1] == '@')
    && (forall c :: c in dots ==> c == '.') && (host == "" || host[0] != '.') && '@' !in host && '@' !in dots
    && (forall c :: c in user + dots + host ==> c !in {'/', '?', '#'})
    && (rest == "" || rest[0] in {'/', '?', '#'})
  }

  predicate MarkAt(s: string, i: nat) {
    i + 3 <= |s| && s[i] == ':' && s[i + 1] == '/' && s[i + 2] == '/'
  }

  ghost predicate HasMark(s: string) {
    exists i: nat :: MarkAt(s, i)
  }

  predicate EndsInMark(s: string) {
    |s| >= 3 && MarkAt(s, |s| - 3)
  }

  lemma MarkLater(s: string)
    requires s != "" && HasMark(s[1..])
    ensures HasMark(s)
  {
    var i: nat :| MarkAt(s[1..], i);
    assert MarkAt(s, i + 1);
  }

  lemma {:induction false} AfterSchemeNone(url: string)
    requires !HasMark(url)
    ensures AfterScheme(url) == url
  {
    if |url| >= 3 {
      assert !MarkAt(url, 0);
      if HasMark(url[1..]) { MarkLater(url); }
      AfterSchemeNone(url[1..]);
    }
  }

  lemma {:induction false} AfterSchemeIs(scheme: string, s: string)
    requires EndsInMark(scheme) && !HasMark(scheme[..|scheme| - 1])
    ensures AfterScheme(scheme + s) == s
  {
    var url := scheme + s;
    if |scheme| == 3 {
      assert url[..3] == "://" && url[3..] == s;
    } else {
      assert !MarkAt(scheme[..|scheme| - 1], 0);
      assert url[..3] != "://" by { assert url[..3] == scheme[..3]; }
      var tail := scheme[1..];
      assert url[1..] == tail + s && tail[..|tail| - 1] == scheme[..|scheme| - 1][1..];
      if HasMark(tail[..|tail| - 1]) { MarkLater(scheme[..|scheme| - 1]); }
      AfterSchemeIs(tail, s);
      assert |AfterScheme(url[1..])| < |url[1..]|;
    }
  }

  lemma {:induction false} CutIs(front: string, rest: string)
    requires (forall c :: c in front ==> c !in {'/', '?', '#'}) && (rest == "" || rest[0] in {'/', '?', '#'})
    ensures Cut(front + rest) == front
  {
    var s := front + rest;
    if front == "" {
      assert s == rest;
    } else {
      assert front[0] in front && s[0] == front[0] && s[1..] == front[1..] + rest;
      assert forall c :: c in front[1..] ==> c in front;
      CutIs(front[1..], rest);
    }
  }

  lemma {:induction false} LastName(user: string, host: string)
    requires '@' !in host && (user == "" || user[|user| - 1] == '@')
    ensures var names := Split(user + host, '@'); names[|names| - 1] == host
    decreases |user|
  {
    if user == "" {
      assert user + host == host;
      OnePiece(host, '@');
    } else {
      var i := Find(user, '@');
      assert '@' in user;
      var first, rest := user[..i], user[i + 1..];
      assert user + host == first + ['@'] + (rest + host);
      SplitFirst(first, '@', rest + host);
      assert rest == "" || rest[|rest| - 1] == '@';
      LastName(rest, host);
    }
  }

  lemma {:induction false} UndottedIs(dots: string, host: string)
    requires (forall c :: c in dots ==> c == '.') && (host == "" || host[0] != '.')
    ensures Undotted(dots + host) == host
  {
    if dots == "" {
      assert dots + host == host;
    } else {
      assert dots[0] in dots && (dots + host)[1..] == dots[1..] + host;
      assert forall c :: c in dots[1..] ==> c in dots;
      UndottedIs(dots[1..], host);
    }
  }

  /** What is asked of the registrable rule is the host part of the url. */
  lemma AuthorityIs(url: string, host: string)
    requires HostPart(url, host)
    ensures Authority(url) == host
  {
    var scheme, user, dots, rest :| UrlParts(url, scheme, user, dots, host, rest);
    AfterParts(url, scheme, user, dots, host, rest);
    hide AfterScheme, Cut, Undotted, HasMark;
    var front := user + dots + host;
    CutIs(front, rest);
    assert front == user + (dots + host);
    assert '@' !in dots + host;
    LastName(user, dots + host);
    UndottedIs(dots, host);
  }

  lemma AfterParts(url: string, scheme: string, user: string, dots: string, host: string, rest: string)
    requires UrlParts(url, scheme, user, dots, host, rest)
    ensures AfterScheme(url) == user + dots + host + rest
  {
    hide AfterScheme, HasMark;
    var s := user + dots + host + rest;
    assert url == scheme + s;
    if scheme == "" {
      assert url == s;
      AfterSchemeNone(s);
    } else {
      AfterSchemeIs(scheme, s);
    }
  }

  lemma {:induction false} SchemeOf(url: string) returns (scheme: string)
    ensures url == scheme + AfterScheme(url)
    ensures if scheme == "" then !HasMark(url) else EndsInMark(scheme) && !HasMark(scheme[..|scheme| - 1])
  {
    if |url| < 3 {
      scheme := "";
    } else if url[..3] == "://" {
      scheme := url[..3];
    } else {
      var rest := SchemeOf(url[1..]);
      assert !MarkAt(url, 0);
      if rest == "" {
        scheme := "";
        MarkHere(url);
      } else {
        scheme := [url[0]] + rest;
        assert |AfterScheme(url[1..])| < |url[1..]|;
        assert scheme[..|scheme| - 1][1..] == rest[..|rest| - 1];
        assert !MarkAt(scheme[..|scheme| - 1], 0) by {
          assert MarkAt(scheme[..|scheme| - 1], 0) ==> MarkAt(url, 0);
        }
        MarkHere(scheme[..|scheme| - 1]);
      }
    }
  }

  lemma MarkHere(s: string)
    requires s != "" && !MarkAt(s, 0) && !HasMark(s[1..])
    ensures !HasMark(s)
  {
    if i: nat :| MarkAt(s, i) {
      assert MarkAt(s[1..], i - 1);
    }
  }

  lemma {:induction false} CutOf(s: string) returns (rest: string)
    ensures s == Cut(s) + rest && (rest == "" || rest[0] in {'/', '?', '#'})
    ensures forall c :: c in Cut(s) ==> c !in {'/', '?', '#'}
  {
    if s == "" || s[0] in {'/', '?', '#'} {
      rest := s;
    } else {
      rest := CutOf(s[1..]);
    }
  }

  lemma {:induction false} UserOf(s: string) returns (user: string)
    ensures var names := Split(s, '@'); s == user + names[|names| - 1] && (user == "" || user[|user| - 1] == '@')
    ensures var names := Split(s, '@'); '@' !in names[|names| - 1]
    decreases |s|
  {
    hide Split;
    var i := Find(s, '@');
    if i == |s| {
      user := "";
      OnePiece(s, '@');
    } else {
      var first, tail := s[..i], s[i + 1..];
      var rest := UserOf(tail);
      assert s == first + ['@'] + tail;
      SplitFirst(first, '@', tail);
      user := first + ['@'] + rest;
    }
  }

  lemma {:induction false} DotsOf(s: string) returns (dots: string)
    ensures s == dots + Undotted(s) && (forall c :: c in dots ==> c == '.')
    ensures Undotted(s) == "" || Undotted(s)[0] != '.'
  {
    if s != "" && s[0] == '.' {
      dots := DotsOf(s[1..]);
      dots := ['.'] + dots;
    } else {
      dots := "";
    }
  }

  /** Every url has one host part, and it is the one asked for. */
  lemma AuthorityExactly(url: string, host: string)
    ensures Authority(url) == host <==> HostPart(url, host)
  {
    hide AfterScheme, Cut, Undotted, HasMark, Split, Authority, UrlParts;
    if HostPart(url, host) { AuthorityIs(url, host); }
    HasHostPart(url);
  }

  lemma HasHostPart(url: string)
    ensures HostPart(url, Authority(url))
  {
    hide AfterScheme, Cut, Undotted, HasMark, Split, UrlParts;
    var scheme := SchemeOf(url);
    var s := AfterScheme(url);
    var rest := CutOf(s);
    var user := UserOf(Cut(s));
    var names := Split(Cut(s), '@');
    var dots := DotsOf(names[|names| - 1]);
    PartsFit(url, scheme, s, rest, Cut(s), user, names[|names| - 1], dots, Authority(url));
  }

  lemma PartsFit(url: string, scheme: string, s: string, rest: string, front: string, user: string, name: string,
                 dots: string, host: string)
    requires url == scheme + s && s == front + rest && front == user + name && name == dots + host
    requires if scheme == "" then !HasMark(url) else EndsInMark(scheme) && !HasMark(scheme[..|scheme| - 1])
    requires (user == "" || user[|user| - 1] == '@') && '@' !in name
    requires (forall c :: c in dots ==> c == '.') && (host == "" || host[0] != '.')
    requires (forall c :: c in front ==> c !in {'/', '?', '#'}) && (rest == "" || rest[0] in {'/', '?', '#'})
    ensures UrlParts(url, scheme, user, dots, host, rest)
  {
    hide HasMark;
    assert s == user + dots + host + rest && front == user + dots + host;
    assert url == scheme + user + dots + host + rest;
    if scheme == "" { assert url == s; }
  }

  /** A line dates a registrable to a year exactly when it is a capture with a full stamp in the years kept, of a 2xx,
      a 3xx or no status, whose host part is the registrable itself. */
  lemma DatesExactly(r: Record, rules: Rules, k: Key, t: string, host: string)
    requires r.Capture? ==> HostPart(r.url, host)
    ensures Dates(r, rules, k, t) <==>
      && r.Capture? && t == r.stamp && |t| == 14 && (forall c :: c in t ==> '0' <= c <= '9')
      && k.year == t[..4] && k.year in rules.years
      && (r.status.Some? ==> r.status.value != "" && (r.status.value[0] == '2' || r.status.value[0] == '3'))
      && rules.registrable(host) == Some(k.domain)
  {
    hide Authority, HostPart;
    if r.Capture? {
      AuthorityIs(r.url, host);
      assert forall i :: 0 <= i < |r.stamp| ==> r.stamp[i] in r.stamp;
    }
  }

  type Stamps = map<Key, string>

  predicate Dates(r: Record, rules: Rules, k: Key, t: string) {
    ExactOf(r, rules) == Some(Exact(k, t))
  }

  ghost predicate HasRow(recs: seq<Record>, rules: Rules, k: Key, t: string) {
    exists r :: r in recs && Dates(r, rules, k, t)
  }

  /** Each key dated, with its least stamp. */
  ghost predicate Summary(stamps: Stamps, recs: seq<Record>, rules: Rules) {
    && (forall k :: k in stamps ==> HasRow(recs, rules, k, stamps[k]))
    && (forall k, t :: HasRow(recs, rules, k, t) ==> k in stamps && !Less(t, stamps[k]))
  }

  function Put(stamps: Stamps, e: Option<Exact>): Stamps {
    if e.Some? && (e.value.key !in stamps || Less(e.value.stamp, stamps[e.value.key]))
    then stamps[e.value.key := e.value.stamp] else stamps
  }

  lemma HasRowMore(recs: seq<Record>, r: Record, rules: Rules, k: Key, t: string)
    ensures HasRow(recs + [r], rules, k, t) <==> HasRow(recs, rules, k, t) || Dates(r, rules, k, t)
  {
    if HasRow(recs, rules, k, t) {
      var q :| q in recs && Dates(q, rules, k, t);
      assert q in recs + [r];
    }
    if Dates(r, rules, k, t) { assert r in recs + [r]; }
  }

  lemma PutSummary(stamps: Stamps, recs: seq<Record>, r: Record, rules: Rules)
    requires Summary(stamps, recs, rules)
    ensures Summary(Put(stamps, ExactOf(r, rules)), recs + [r], rules)
  {
    hide ExactOf, Less, HasRow;
    var next := Put(stamps, ExactOf(r, rules));
    forall k | k in next ensures HasRow(recs + [r], rules, k, next[k]) {
      HasRowMore(recs, r, rules, k, next[k]);
    }
    forall k, t | HasRow(recs + [r], rules, k, t) ensures k in next && !Less(t, next[k]) {
      HasRowMore(recs, r, rules, k, t);
      LessTotal(t, t);
      if HasRow(recs, rules, k, t) && next[k] != stamps[k] {
        LessTotal(t, stamps[k]);
        LessTotal(t, next[k]);
        LessChain(next[k], stamps[k], t);
      }
    }
  }

  lemma LessChain(a: string, b: string, c: string)
    requires Less(a, b) && !Less(c, b)
    ensures !Less(c, a)
  {
    LessTotal(a, c);
    LessTotal(b, c);
    if b != c { LessTransitive(a, b, c); }
  }

  datatype Outcome = Whole | Truncated | Bad

  /** The lines that are captures. */
  function Captures(recs: seq<Record>): nat {
    if recs == [] then 0 else Captures(recs[..|recs| - 1]) + if recs[|recs| - 1].Capture? then 1 else 0
  }

  lemma {:induction false} CapturesExactly(recs: seq<Record>)
    ensures Captures(recs) == |set i | 0 <= i < |recs| && recs[i].Capture?|
  {
    if recs != [] {
      var front, last := recs[..|recs| - 1], |recs| - 1;
      CapturesExactly(front);
      var before, all := set i | 0 <= i < |front| && front[i].Capture?, set i | 0 <= i < |recs| && recs[i].Capture?;
      assert all == before + if recs[last].Capture? then {last} else {};
    }
  }

  /** Read one journal's lines into the stamps, asking for each authority's registrable once. */
  method ReadJournal(recs: seq<Record>, rules: Rules, stamps0: Stamps, ghost before: seq<Record>)
    returns (stamps: Stamps, rows: nat)
    requires Summary(stamps0, before, rules)
    ensures Summary(stamps, before + recs, rules)
    ensures rows == Captures(recs)
  {
    stamps, rows := stamps0, 0;
    var exact: map<string, Option<string>> := map[];
    assert before + recs[..0] == before;
    for i := 0 to |recs|
      invariant rows == Captures(recs[..i])
      invariant Summary(stamps, before + recs[..i], rules)
      invariant forall a :: a in exact ==> exact[a] == rules.registrable(a)
    {
      var r := recs[i];
      assert recs[..i + 1][..i] == recs[..i];
      PutSummary(stamps, before + recs[..i], r, rules);
      assert before + recs[..i + 1] == before + recs[..i] + [r];
      if r.Garbage? { continue; }
      rows := rows + 1;
      if |r.stamp| != 14 || !Digits(r.stamp) { continue; }
      var year := r.stamp[..4];
      if year !in rules.years { continue; }
      if r.status.Some? && (r.status.value == "" || r.status.value[0] !in {'2', '3'}) { continue; }
      var authority := Authority(r.url);
      if authority !in exact {
        exact := exact[authority := rules.registrable(authority)];
      }
      var host := exact[authority];
      if host.Some? {
        var k := Key(host.value, year);
        if k !in stamps || Less(r.stamp, stamps[k]) {
          stamps := stamps[k := r.stamp];
        }
      }
    }
    assert recs[..|recs|] == recs;
  }

  // ------------------------------------------------------------------ journals that appear and grow

  datatype Stat = Stat(size: nat, mtime: nat)

  datatype Seen = Seen(stat: Stat, outcome: Outcome)

  datatype Reading = Reading(recs: seq<Record>, outcome: Outcome)

  /** The folder over time, what a journal of some size holds, and what a read at some time gives. */
  datatype World = World(rules: Rules, at: nat -> map<string, Stat>, content: (string, nat) -> seq<Record>,
                         read: (string, nat) -> Reading)

  /** A journal only grows, and its lines only get more. A read that is not bad gives all its lines; a
      bad one, of a corrupt or a vanished journal, some of them. */
  ghost predicate Growing(w: World) {
    && (forall t: nat, u: nat, n :: t <= u && n in w.at(t) && n in w.at(u) ==> w.at(t)[n].size <= w.at(u)[n].size)
    && (forall n, a: nat, b: nat :: a <= b ==> w.content(n, a) <= w.content(n, b))
    && (forall n, t: nat :: ReadsHonestly(w, n, t))
  }

  ghost predicate ReadsHonestly(w: World, n: string, t: nat) {
    var r := w.read(n, t);
    if n in w.at(t) then
      && r.recs <= w.content(n, w.at(t)[n].size)
      && (!r.outcome.Bad? ==> r.recs == w.content(n, w.at(t)[n].size))
    else r == Reading([], Bad)
  }

  type Outputs = map<string, Stamps>

  /** A line that a journal had by then. */
  ghost predicate From(w: World, until: nat, k: Key, t: string) {
    exists n, u: nat :: u <= until && n in w.at(u) && HasRow(w.content(n, w.at(u)[n].size), w.rules, k, t)
  }

  ghost predicate AnyOut(outputs: Outputs, k: Key, t: string) {
    exists tag :: tag in outputs && k in outputs[tag] && outputs[tag][k] == t
  }

  /** Every output stamp is a line of a journal. */
  ghost predicate Sound(w: World, outputs: Outputs, until: nat) {
    forall k, t :: AnyOut(outputs, k, t) ==> From(w, until, k, t)
  }

  /** Some output has the key with this stamp or an earlier one. */
  ghost predicate Out(outputs: Outputs, k: Key, t: string) {
    exists u :: AnyOut(outputs, k, u) && !Less(t, u)
  }

  ghost predicate Covered(w: World, outputs: Outputs, recs: seq<Record>) {
    forall k, t :: HasRow(recs, w.rules, k, t) ==> Out(outputs, k, t)
  }

  /** Each journal the state holds as read has all its lines of that size in the outputs. */
  ghost predicate Complete(w: World, outputs: Outputs, state: map<string, Seen>) {
    forall n :: n in state && !state[n].outcome.Bad? ==> Covered(w, outputs, w.content(n, state[n].stat.size))
  }

  /** Each state entry is a stat the journal had by then. */
  ghost predicate Recorded(w: World, state: map<string, Seen>, until: nat) {
    forall n :: n in state ==> RecordedAt(w, n, state[n].stat, until)
  }

  ghost predicate RecordedAt(w: World, n: string, stat: Stat, until: nat) {
    exists u: nat :: u <= until && n in w.at(u) && w.at(u)[n] == stat
  }

  // ------------------------------------------------------------------ when everything is unchanged

  /** Every journal of the folder is in the state at its size, and none is bad. */
  ghost predicate Settled(state: map<string, Seen>, folder: map<string, Stat>) {
    forall n :: n in folder ==> n in state && state[n].stat.size == folder[n].size && !state[n].outcome.Bad?
  }

  ghost predicate NoneGone(w: World, until: nat) {
    forall n, t: nat, u: nat :: t <= u <= until && n in w.at(t) ==> n in w.at(u)
  }

  ghost predicate Batch(w: World, folder: map<string, Stat>, k: Key, t: string) {
    exists n :: n in folder && HasRow(w.content(n, folder[n].size), w.rules, k, t)
  }

  /** The earliest stamp that all outputs together give a key. */
  ghost predicate LeastOut(outputs: Outputs, k: Key, t: string) {
    AnyOut(outputs, k, t) && forall u :: AnyOut(outputs, k, u) ==> !Less(u, t)
  }

  /** The stamp that one conversion of the whole folder gives a key. */
  ghost predicate LeastBatch(w: World, folder: map<string, Stat>, k: Key, t: string) {
    Batch(w, folder, k, t) && forall u :: Batch(w, folder, k, u) ==> !Less(u, t)
  }

  lemma HasRowPrefix(recs: seq<Record>, more: seq<Record>, rules: Rules, k: Key, t: string)
    requires recs <= more && HasRow(recs, rules, k, t)
    ensures HasRow(more, rules, k, t)
  {
    var r :| r in recs && Dates(r, rules, k, t);
    assert r in more;
  }

  lemma OutIsBatch(w: World, outputs: Outputs, now: nat, k: Key, t: string)
    requires Growing(w) && NoneGone(w, now) && Sound(w, outputs, now) && AnyOut(outputs, k, t)
    ensures Batch(w, w.at(now), k, t)
  {
    hide ReadsHonestly;
    var n, u: nat :| u <= now && n in w.at(u) && HasRow(w.content(n, w.at(u)[n].size), w.rules, k, t);
    HasRowPrefix(w.content(n, w.at(u)[n].size), w.content(n, w.at(now)[n].size), w.rules, k, t);
  }

  /** Every journal of the folder is in the state at its size: the next run reads nothing if their mtimes are the
      same too. */
  ghost predicate Held(state: map<string, Seen>, folder: map<string, Stat>) {
    forall n :: n in folder ==> n in state && state[n].stat.size == folder[n].size
  }

  ghost predicate JournalCovered(w: World, outputs: Outputs, folder: map<string, Stat>, n: string)
    requires n in folder
  {
    Covered(w, outputs, w.content(n, folder[n].size))
  }

  ghost predicate BadCovered(w: World, outputs: Outputs, state: map<string, Seen>, folder: map<string, Stat>) {
    forall n :: n in folder && n in state && state[n].outcome.Bad? ==> JournalCovered(w, outputs, folder, n)
  }

  lemma BatchIsOut(w: World, outputs: Outputs, state: map<string, Seen>, folder: map<string, Stat>, k: Key, t: string)
    requires Complete(w, outputs, state) && Held(state, folder) && BadCovered(w, outputs, state, folder)
    requires Batch(w, folder, k, t)
    ensures Out(outputs, k, t)
  {
    var n :| n in folder && HasRow(w.content(n, folder[n].size), w.rules, k, t);
    assert Covered(w, outputs, w.content(n, state[n].stat.size)) by {
      if state[n].outcome.Bad? { assert JournalCovered(w, outputs, folder, n); }
    }
  }

  /** Outputs and batch date the same keys, and date each first with the same stamp. */
  ghost predicate SameLeast(w: World, outputs: Outputs, folder: map<string, Stat>) {
    forall k, t :: LeastOut(outputs, k, t) <==> LeastBatch(w, folder, k, t)
  }

  lemma CoveredIsBatch(w: World, outputs: Outputs, state: map<string, Seen>, now: nat, k: Key, t: string)
    requires Growing(w) && NoneGone(w, now) && Sound(w, outputs, now) && Complete(w, outputs, state)
    requires Held(state, w.at(now)) && BadCovered(w, outputs, state, w.at(now))
    ensures LeastOut(outputs, k, t) <==> LeastBatch(w, w.at(now), k, t)
    ensures (exists u :: AnyOut(outputs, k, u)) <==> exists u :: Batch(w, w.at(now), k, u)
  {
    hide Growing, NoneGone, Sound, Complete, Held, BadCovered, Batch, AnyOut, Less;
    forall u | AnyOut(outputs, k, u) ensures Batch(w, w.at(now), k, u) { OutIsBatch(w, outputs, now, k, u); }
    forall u | Batch(w, w.at(now), k, u) ensures Out(outputs, k, u) {
      BatchIsOut(w, outputs, state, w.at(now), k, u);
    }
    if LeastOut(outputs, k, t) {
      forall u | Batch(w, w.at(now), k, u) ensures !Less(u, t) {
        var v :| AnyOut(outputs, k, v) && !Less(u, v);
        NotLessChain(u, v, t);
      }
    }
    if LeastBatch(w, w.at(now), k, t) {
      var v :| AnyOut(outputs, k, v) && !Less(t, v);
      LessTotal(t, v);
    }
  }

  /** Once all is unchanged and none bad, the outputs together date the keys of one conversion of the whole
      folder, and the earliest stamp they give each is the one that conversion gives. */
  lemma SettledIsBatch(w: World, outputs: Outputs, state: map<string, Seen>, now: nat, k: Key, t: string)
    requires Growing(w) && NoneGone(w, now) && Sound(w, outputs, now) && Complete(w, outputs, state)
    requires Settled(state, w.at(now))
    ensures LeastOut(outputs, k, t) <==> LeastBatch(w, w.at(now), k, t)
    ensures (exists u :: AnyOut(outputs, k, u)) <==> exists u :: Batch(w, w.at(now), k, u)
  {
    hide Growing, NoneGone, Sound, Complete, Batch, AnyOut, LeastOut, LeastBatch;
    CoveredIsBatch(w, outputs, state, now, k, t);
  }

  lemma {:induction false} SummaryOf(recs: seq<Record>, rules: Rules) returns (stamps: Stamps)
    ensures Summary(stamps, recs, rules)
  {
    if recs == [] {
      stamps := map[];
    } else {
      var last := |recs| - 1;
      stamps := SummaryOf(recs[..last], rules);
      PutSummary(stamps, recs[..last], recs[last], rules);
      assert recs[..last] + [recs[last]] == recs;
      stamps := Put(stamps, ExactOf(recs[last], rules));
    }
  }

  ghost predicate BatchOf(w: World, folder: map<string, Stat>, names: set<string>, k: Key, t: string) {
    exists n :: n in names && n in folder && HasRow(w.content(n, folder[n].size), w.rules, k, t)
  }

  /** The lines of all the journals in one sequence. */
  lemma {:induction false} AllLines(w: World, folder: map<string, Stat>, names: set<string>) returns (recs: seq<Record>)
    requires names <= folder.Keys
    ensures forall k, t :: HasRow(recs, w.rules, k, t) <==> BatchOf(w, folder, names, k, t)
    decreases |names|
  {
    recs := [];
    if names != {} {
      var n :| n in names;
      var rest := AllLines(w, folder, names - {n});
      var lines := w.content(n, folder[n].size);
      recs := rest + lines;
      forall k, t ensures HasRow(recs, w.rules, k, t) <==> BatchOf(w, folder, names, k, t) {
        HasRowConcat(rest, lines, w.rules, k, t);
        BatchSplits(w, folder, names, n, k, t);
      }
    }
  }

  lemma BatchSplits(w: World, folder: map<string, Stat>, names: set<string>, n: string, k: Key, t: string)
    requires n in names && n in folder
    ensures BatchOf(w, folder, names, k, t) <==>
      BatchOf(w, folder, names - {n}, k, t) || HasRow(w.content(n, folder[n].size), w.rules, k, t)
  {
  }

  /** A key that some journal dates has an earliest stamp in the batch, and no line of it is earlier. */
  lemma LeastExists(w: World, folder: map<string, Stat>, k: Key, t: string) returns (u: string)
    requires Batch(w, folder, k, t)
    ensures LeastBatch(w, folder, k, u) && !Less(t, u)
  {
    var recs := AllLines(w, folder, folder.Keys);
    assert forall x :: BatchOf(w, folder, folder.Keys, k, x) <==> Batch(w, folder, k, x);
    var stamps := SummaryOf(recs, w.rules);
    hide Batch, BatchOf, HasRow;
    assert HasRow(recs, w.rules, k, t);
    u := stamps[k];
  }

  lemma SameLeastCovers(w: World, outputs: Outputs, folder: map<string, Stat>, n: string)
    requires SameLeast(w, outputs, folder) && n in folder
    ensures JournalCovered(w, outputs, folder, n)
  {
    hide Less, HasRow;
    forall k, t | HasRow(w.content(n, folder[n].size), w.rules, k, t) ensures Out(outputs, k, t) {
      assert Batch(w, folder, k, t);
      var u := LeastExists(w, folder, k, t);
      assert LeastOut(outputs, k, u);
    }
  }

  /** With bad journals in an unchanged folder, the outputs are the batch's if and only if the outputs have every
      line of each bad one. */
  lemma BadIsBatch(w: World, outputs: Outputs, state: map<string, Seen>, now: nat)
    requires Growing(w) && NoneGone(w, now) && Sound(w, outputs, now) && Complete(w, outputs, state)
    requires Held(state, w.at(now))
    ensures SameLeast(w, outputs, w.at(now)) <==> BadCovered(w, outputs, state, w.at(now))
  {
    hide Growing, NoneGone, Sound, Complete, Held, LeastOut, LeastBatch, JournalCovered;
    if BadCovered(w, outputs, state, w.at(now)) {
      forall k, t ensures LeastOut(outputs, k, t) <==> LeastBatch(w, w.at(now), k, t) {
        CoveredIsBatch(w, outputs, state, now, k, t);
      }
    }
    if SameLeast(w, outputs, w.at(now)) {
      forall n | n in w.at(now) ensures JournalCovered(w, outputs, w.at(now), n) {
        SameLeastCovers(w, outputs, w.at(now), n);
      }
    }
  }

  lemma NotLessChain(a: string, b: string, c: string)
    requires !Less(a, b) && !Less(b, c)
    ensures !Less(a, c)
  {
    LessTotal(a, b);
    LessTotal(b, c);
    LessTotal(a, c);
    if Less(a, c) && b != c { LessTransitive(b, a, c); }
  }

  // ------------------------------------------------------------------ one run

  ghost predicate Gathered(w: World, until: nat, recs: seq<Record>) {
    forall k, t :: HasRow(recs, w.rules, k, t) ==> From(w, until, k, t)
  }

  ghost predicate Among(w: World, some: seq<Record>, recs: seq<Record>) {
    forall k, t :: HasRow(some, w.rules, k, t) ==> HasRow(recs, w.rules, k, t)
  }

  /** The entries this run changed are of journals whose lines it has read. */
  ghost predicate Pending(w: World, state: map<string, Seen>, st: map<string, Seen>, recs: seq<Record>) {
    && state.Keys <= st.Keys
    && forall n :: n in st && !st[n].outcome.Bad? ==>
        (n in state && st[n] == state[n]) || Among(w, w.content(n, st[n].stat.size), recs)
  }

  lemma HasRowConcat(a: seq<Record>, b: seq<Record>, rules: Rules, k: Key, t: string)
    ensures HasRow(a + b, rules, k, t) <==> HasRow(a, rules, k, t) || HasRow(b, rules, k, t)
  {
    if HasRow(a, rules, k, t) {
      var r :| r in a && Dates(r, rules, k, t);
      assert r in a + b;
    }
    if HasRow(b, rules, k, t) {
      var r :| r in b && Dates(r, rules, k, t);
      assert r in a + b;
    }
    if HasRow(a + b, rules, k, t) {
      var r :| r in a + b && Dates(r, rules, k, t);
    }
  }

  lemma FromLater(w: World, until: nat, later: nat, k: Key, t: string)
    requires From(w, until, k, t) && until <= later
    ensures From(w, later, k, t)
  {
  }

  lemma Later(w: World, st: map<string, Seen>, recs: seq<Record>, until: nat, later: nat)
    requires Gathered(w, until, recs) && Recorded(w, st, until) && until <= later
    ensures Gathered(w, later, recs) && Recorded(w, st, later)
  {
    forall k, t | HasRow(recs, w.rules, k, t) ensures From(w, later, k, t) { FromLater(w, until, later, k, t); }
  }

  /** One journal read: its stat from before, its lines from now. */
  lemma ReadOne(w: World, state: map<string, Seen>, st: map<string, Seen>, recs: seq<Record>,
                name: string, before: nat, now: nat)
    requires Growing(w) && before <= now && name in w.at(before)
    requires Gathered(w, now, recs) && Pending(w, state, st, recs)
    ensures var r := w.read(name, now);
      var st' := st[name := Seen(w.at(before)[name], r.outcome)];
      Gathered(w, now, recs + r.recs) && Pending(w, state, st', recs + r.recs)
  {
    var r := w.read(name, now);
    assert ReadsHonestly(w, name, now);
    var st' := st[name := Seen(w.at(before)[name], r.outcome)];
    forall k, t | HasRow(recs + r.recs, w.rules, k, t) ensures From(w, now, k, t) {
      HasRowConcat(recs, r.recs, w.rules, k, t);
      if HasRow(r.recs, w.rules, k, t) {
        HasRowPrefix(r.recs, w.content(name, w.at(now)[name].size), w.rules, k, t);
      }
    }
    forall n | n in st' && !st'[n].outcome.Bad? && !(n in state && st'[n] == state[n])
      ensures Among(w, w.content(n, st'[n].stat.size), recs + r.recs)
    {
      forall k, t | HasRow(w.content(n, st'[n].stat.size), w.rules, k, t)
        ensures HasRow(recs + r.recs, w.rules, k, t)
      {
        HasRowConcat(recs, r.recs, w.rules, k, t);
        if n == name { HasRowPrefix(w.content(n, st'[n].stat.size), r.recs, w.rules, k, t); }
      }
    }
  }

  lemma RecordedMore(w: World, st: map<string, Seen>, until: nat, name: string, before: nat, o: Outcome)
    requires Recorded(w, st, until) && before <= until && name in w.at(before)
    ensures Recorded(w, st[name := Seen(w.at(before)[name], o)], until)
  {
  }

  /** The new output: what the run read, and everything before it. */
  lemma OutputAdded(w: World, outputs: Outputs, state: map<string, Seen>, now: nat, tag: string,
                    stamps: Stamps, recs: seq<Record>)
    requires Sound(w, outputs, now) && Complete(w, outputs, state) && tag !in outputs
    requires Summary(stamps, recs, w.rules) && Gathered(w, now, recs)
    ensures Sound(w, outputs[tag := stamps], now) && Complete(w, outputs[tag := stamps], state)
    ensures Covered(w, outputs[tag := stamps], recs)
  {
    hide HasRow, From, Less;
    var next := outputs[tag := stamps];
    forall k, t | AnyOut(next, k, t) ensures From(w, now, k, t) {
      var x :| x in next && k in next[x] && next[x][k] == t;
      if x != tag { assert AnyOut(outputs, k, t); }
    }
    forall k, t | AnyOut(outputs, k, t) ensures AnyOut(next, k, t) {
      var x :| x in outputs && k in outputs[x] && outputs[x][k] == t;
      assert x in next && next[x] == outputs[x];
    }
    forall k, t | HasRow(recs, w.rules, k, t) ensures Out(next, k, t) {
      assert tag in next && next[tag] == stamps && AnyOut(next, k, stamps[k]);
    }
    forall n | n in state && !state[n].outcome.Bad? ensures Covered(w, next, w.content(n, state[n].stat.size)) {
      var recs' := w.content(n, state[n].stat.size);
      assert Covered(w, outputs, recs');
      forall k, t | HasRow(recs', w.rules, k, t) ensures Out(next, k, t) { assert Out(outputs, k, t); }
    }
  }

  lemma StateSaved(w: World, outputs: Outputs, state: map<string, Seen>, st: map<string, Seen>, recs: seq<Record>)
    requires Complete(w, outputs, state) && Covered(w, outputs, recs) && Pending(w, state, st, recs)
    ensures Complete(w, outputs, st)
  {
    forall n | n in st && !st[n].outcome.Bad? ensures Covered(w, outputs, w.content(n, st[n].stat.size)) {
      if !(n in state && st[n] == state[n]) { assert Among(w, w.content(n, st[n].stat.size), recs); }
    }
  }

  lemma NothingDated(w: World, outputs: Outputs, recs: seq<Record>)
    requires Summary(map[], recs, w.rules)
    ensures Covered(w, outputs, recs)
  {
  }

  ghost predicate OnlyGrows(w: World, n: string) {
    forall t: nat, u: nat :: t <= u && n in w.at(t) && n in w.at(u) ==> w.at(t)[n].size <= w.at(u)[n].size
  }

  /** An unchanged journal was already at this size when the run began. */
  lemma UnchangedOne(w: World, state: map<string, Seen>, start: nat, now: nat, name: string)
    requires OnlyGrows(w, name) && name in w.at(start) && name in w.at(now) && start <= now
    requires name in state && RecordedAt(w, name, state[name].stat, start) && state[name].stat == w.at(now)[name]
    ensures state[name].stat.size == w.at(start)[name].size
    ensures forall left: set<string> :: !state[name].outcome.Bad? && Settled(state, w.at(start) - left) ==>
      Settled(state, w.at(start) - (left - {name}))
  {
    var u: nat :| u <= start && name in w.at(u) && w.at(u)[name] == state[name].stat;
  }

  /** Each journal of the folder is in the state at its size, or a later one. */
  ghost predicate Visited(st: map<string, Seen>, folder: map<string, Stat>) {
    forall n :: n in folder ==> n in st && st[n].stat.size >= folder[n].size
  }

  ghost predicate SomeBad(st: map<string, Seen>, names: set<string>) {
    exists n :: n in names && n in st && st[n].outcome.Bad?
  }

  lemma NoneGoneEarlier(w: World, until: nat, later: nat)
    requires until <= later
    ensures NoneGone(w, later) ==> NoneGone(w, until)
  {
  }

  /** One more journal of the folder is in the state, read or unchanged. */
  lemma VisitedMore(w: World, st: map<string, Seen>, folder: map<string, Stat>, left: set<string>, name: string,
                    start: nat, before: nat, seen: Seen)
    requires Growing(w) && folder == w.at(start) && start <= before && name in folder && name in w.at(before)
    requires name in left && left <= folder.Keys && seen.stat == w.at(before)[name]
    ensures Visited(st, folder - left) ==> Visited(st[name := seen], folder - (left - {name}))
    ensures SomeBad(st, folder.Keys - left) ==> SomeBad(st[name := seen], folder.Keys - (left - {name}))
    ensures seen.outcome.Bad? ==> SomeBad(st[name := seen], folder.Keys - (left - {name}))
    ensures |folder.Keys - (left - {name})| == |folder.Keys - left| + 1
  {
    hide ReadsHonestly;
    assert folder.Keys - (left - {name}) == folder.Keys - left + {name};
  }

  /** No journal of the folder is new or changed while the run lasts. */
  ghost predicate Steady(w: World, state: map<string, Seen>, start: nat, now: nat) {
    forall n, t: nat :: start <= t <= now && n in w.at(start) && n in w.at(t) ==>
      n in state && state[n].stat == w.at(t)[n]
  }

  lemma GrowsHere(w: World, state: map<string, Seen>, start: nat, name: string)
    requires Growing(w) && Recorded(w, state, start) && name in state
    ensures OnlyGrows(w, name) && RecordedAt(w, name, state[name].stat, start)
  {
  }

  /** The counts of the journals looked at so far, and what they say of the state. */
  ghost predicate Tally(w: World, state: map<string, Seen>, st: map<string, Seen>, start: nat, now: nat,
                        left: set<string>, read: nat, same: nat, bad: nat) {
    var folder := w.at(start);
    && (Steady(w, state, start, now) ==> read == 0)
    && (read == 0 && bad == 0 && NoneGone(w, now) ==> Settled(state, folder - left))
    && read + same <= |folder.Keys - left| && bad <= read + same
    && (bad > 0 ==> SomeBad(st, folder.Keys - left))
    && (NoneGone(w, now) ==> Visited(st, folder - left) && read + same == |folder.Keys - left|)
  }

  lemma TallyNone(w: World, state: map<string, Seen>, now: nat)
    ensures Tally(w, state, state, now, now, w.at(now).Keys, 0, 0, 0)
  {
    var folder := w.at(now);
    assert folder - folder.Keys == map[] && folder.Keys - folder.Keys == {};
  }

  lemma TallyGone(w: World, state: map<string, Seen>, st: map<string, Seen>, start: nat, now: nat,
                  left: set<string>, read: nat, same: nat, bad: nat, name: string)
    requires Tally(w, state, st, start, now, left, read, same, bad) && start <= now
    requires name in left && left <= w.at(start).Keys && name !in w.at(now)
    ensures Tally(w, state, st, start, now, left - {name}, read, same, bad)
  {
    StillThere(w, name, start, now);
    var folder := w.at(start);
    assert folder.Keys - (left - {name}) == folder.Keys - left + {name};
  }

  lemma TallySame(w: World, state: map<string, Seen>, st: map<string, Seen>, start: nat, now: nat,
                  left: set<string>, read: nat, same: nat, bad: nat, name: string)
    requires Growing(w) && Recorded(w, state, start) && Tally(w, state, st, start, now, left, read, same, bad)
    requires start <= now && name in left && left <= w.at(start).Keys && name in w.at(now)
    requires name in st && st[name].stat == w.at(now)[name] && (read == 0 ==> st == state)
    ensures Tally(w, state, st, start, now, left - {name}, read, same + 1, bad + if st[name].outcome.Bad? then 1 else 0)
  {
    hide Growing, Recorded, NoneGone, Settled, Visited, SomeBad, Steady;
    VisitedMore(w, st, w.at(start), left, name, start, now, st[name]);
    assert st[name := st[name]] == st;
    if read == 0 {
      GrowsHere(w, state, start, name);
      UnchangedOne(w, state, start, now, name);
    }
  }

  lemma TallyRead(w: World, state: map<string, Seen>, st: map<string, Seen>, start: nat, before: nat, now: nat,
                  left: set<string>, read: nat, same: nat, bad: nat, name: string, seen: Seen)
    requires Growing(w) && Tally(w, state, st, start, before, left, read, same, bad) && start <= before <= now
    requires name in left && left <= w.at(start).Keys && name in w.at(before) && seen.stat == w.at(before)[name]
    requires (read == 0 ==> st == state) && !(name in st && st[name].stat == seen.stat)
    ensures Tally(w, state, st[name := seen], start, now, left - {name}, read + 1, same,
                  bad + if seen.outcome.Bad? then 1 else 0)
  {
    hide Growing, NoneGone, Settled, Visited, SomeBad;
    VisitedMore(w, st, w.at(start), left, name, start, before, seen);
    NoneGoneEarlier(w, before, now);
    assert name in w.at(start);
  }

  lemma TallyAll(w: World, state: map<string, Seen>, st: map<string, Seen>, start: nat, now: nat,
                 read: nat, same: nat, bad: nat)
    requires Tally(w, state, st, start, now, {}, read, same, bad)
    ensures read == 0 && bad == 0 && NoneGone(w, now) ==> Settled(state, w.at(start))
    ensures Steady(w, state, start, now) ==> read == 0
    ensures read + same <= |w.at(start)| && bad <= read + same
    ensures bad > 0 ==> SomeBad(st, w.at(start).Keys)
    ensures NoneGone(w, now) ==> Visited(st, w.at(start)) && read + same == |w.at(start)|
  {
    hide NoneGone, Settled, Visited, SomeBad, Steady;
    var folder := w.at(start);
    assert folder - {} == folder && folder.Keys - {} == folder.Keys;
  }

  /** A line that a read of some journal gave in this time. */
  ghost predicate RowRead(w: World, since: nat, until: nat, k: Key, t: string) {
    exists n, u: nat :: since <= u <= until && HasRow(w.read(n, u).recs, w.rules, k, t)
  }

  ghost predicate AllRead(w: World, since: nat, until: nat, recs: seq<Record>) {
    forall k, t :: HasRow(recs, w.rules, k, t) ==> RowRead(w, since, until, k, t)
  }

  lemma ReadNone(w: World, since: nat)
    ensures AllRead(w, since, since, [])
  {
  }

  lemma ReadMore(w: World, since: nat, before: nat, now: nat, recs: seq<Record>, name: string)
    requires AllRead(w, since, before, recs) && since <= before <= now
    ensures AllRead(w, since, now, recs + w.read(name, now).recs)
  {
    var more := w.read(name, now).recs;
    forall k, t | HasRow(recs + more, w.rules, k, t) ensures RowRead(w, since, now, k, t) {
      HasRowConcat(recs, more, w.rules, k, t);
      if HasRow(recs, w.rules, k, t) {
        var n, u: nat :| since <= u <= before && HasRow(w.read(n, u).recs, w.rules, k, t);
      }
    }
  }

  /** Where a run may be killed: before its output, between the output and the state, or not. */
  datatype Crash = BeforeOutput | BeforeState | Never

  class Converter {
    const w: World
    var outputs: Outputs
    var state: map<string, Seen>
    var now: nat

    ghost predicate Valid()
      reads this
    {
      Growing(w) && Sound(w, outputs, now) && Complete(w, outputs, state) && Recorded(w, state, now)
    }

    constructor (w: World, start: nat)
      requires Growing(w)
      ensures Valid() && this.w == w && now == start && outputs == map[] && state == map[]
    {
      this.w, now, outputs, state := w, start, map[], map[];
    }

    /** Read each journal of the folder that is new or changed. */
    method Gather(delay: nat -> nat)
      returns (st: map<string, Seen>, stamps: Stamps, read: nat, same: nat, bad: nat, ghost recs: seq<Record>)
      requires Valid()
      modifies this`now
      ensures Valid() && old(now) <= now
      ensures Summary(stamps, recs, w.rules) && Gathered(w, now, recs)
      ensures Pending(w, state, st, recs) && Recorded(w, st, now)
      ensures read == 0 ==> st == state && stamps == map[]
      ensures read == 0 && bad == 0 && NoneGone(w, now) ==> Settled(state, w.at(old(now)))
      ensures Steady(w, state, old(now), now) ==> read == 0
      ensures read + same <= |w.at(old(now))| && bad <= read + same
      ensures bad > 0 ==> SomeBad(st, w.at(old(now)).Keys)
      ensures NoneGone(w, now) ==> Visited(st, w.at(old(now))) && read + same == |w.at(old(now))|
      ensures AllRead(w, old(now), now, recs) && ((forall t :: delay(t) == 0) ==> now == old(now))
    {
      hide Growing, Sound, Complete, Recorded, Gathered, Pending, NoneGone, Summary, Visited, SomeBad, Settled, Tally,
        Steady, AllRead;
      st, stamps, read, same, bad, recs := state, map[], 0, 0, 0, [];
      var folder := w.at(now);
      var left := folder.Keys;
      NothingRead(w, state, now);
      TallyNone(w, state, now);
      ReadNone(w, now);
      while left != {}
        invariant left <= folder.Keys && old(now) <= now && Valid()
        invariant Summary(stamps, recs, w.rules) && Gathered(w, now, recs)
        invariant Pending(w, state, st, recs) && Recorded(w, st, now)
        invariant read == 0 ==> st == state && stamps == map[]
        invariant Tally(w, state, st, old(now), now, left, read, same, bad)
        invariant AllRead(w, old(now), now, recs) && ((forall t :: delay(t) == 0) ==> now == old(now))
        decreases left
      {
        var name :| name in left;
        if name !in w.at(now) {
          TallyGone(w, state, st, old(now), now, left, read, same, bad, name);
          left := left - {name};
          continue;
        }
        ghost var before := now;
        var stat := w.at(now)[name];
        if name in st && st[name].stat == stat {
          TallySame(w, state, st, old(now), now, left, read, same, bad, name);
          left := left - {name};
          same := same + 1;
          if st[name].outcome.Bad? { bad := bad + 1; }
          continue;
        }
        now := now + delay(now);
        var r := w.read(name, now);
        LaterAll(w, outputs, state, st, recs, before, now);
        ReadOne(w, state, st, recs, name, before, now);
        ReadMore(w, old(now), before, now, recs, name);
        RecordedMore(w, st, now, name, before, r.outcome);
        TallyRead(w, state, st, old(now), before, now, left, read, same, bad, name, Seen(stat, r.outcome));
        left := left - {name};
        var count;
        stamps, count := ReadJournal(r.recs, w.rules, stamps, recs);
        recs := recs + r.recs;
        read := read + 1;
        if r.outcome.Bad? { bad := bad + 1; }
        st := st[name := Seen(stat, r.outcome)];
      }
      TallyAll(w, state, st, old(now), now, read, same, bad);
    }

    /** Convert what is new or grown. `delay` is how long each step takes, `recs` all the lines read. */
    method Run(tag: string, delay: nat -> nat, crash: Crash)
      returns (read: nat, same: nat, bad: nat, ghost recs: seq<Record>)
      requires Valid()
      modifies this
      ensures Valid() && old(now) <= now
      ensures tag in old(outputs) ==> outputs == old(outputs) && state == old(state)
      ensures outputs == old(outputs) || NewOutput(old(outputs), outputs, tag, recs)
      ensures crash.BeforeOutput? ==> outputs == old(outputs)
      ensures tag !in old(outputs) && !crash.BeforeOutput? ==> Covered(w, outputs, recs)
      ensures tag !in old(outputs) && crash.Never? && NoneGone(w, now) ==> Visited(state, w.at(old(now)))
      ensures !crash.Never? || read == 0 ==> state == old(state)
      ensures Steady(w, old(state), old(now), now) ==> read == 0
      ensures read == 0 ==> outputs == old(outputs)
      ensures tag !in old(outputs) && read == 0 && bad == 0 && NoneGone(w, now) ==> Settled(state, w.at(old(now)))
      ensures AllRead(w, old(now), now, recs) && ((forall t :: delay(t) == 0) ==> now == old(now))
    {
      hide Growing, Sound, Complete, Recorded, Gathered, Pending, NoneGone, Settled, Summary, Visited, Covered, Steady,
        AllRead;
      ReadNone(w, now);
      read, same, bad, recs := 0, 0, 0, [];
      if tag in outputs { return; }
      var st, stamps;
      st, stamps, read, same, bad, recs := Gather(delay);
      if crash.BeforeOutput? { return; }
      if stamps != map[] {
        OutputAdded(w, outputs, state, now, tag, stamps, recs);
        outputs := outputs[tag := stamps];
      } else {
        NothingDated(w, outputs, recs);
      }
      if crash.BeforeState? { return; }
      if read > 0 {
        StateSaved(w, outputs, state, st, recs);
        state := st;
      }
    }

    /** Time passes between runs. */
    method Wait(later: nat)
      requires Valid() && now <= later
      modifies this`now
      ensures Valid() && now == later
    {
      LaterAll(w, outputs, state, state, [], now, later);
      now := later;
    }

    /** One more output file, with the least stamps of what the run read. */
    ghost predicate NewOutput(was: Outputs, now: Outputs, tag: string, recs: seq<Record>) {
      tag !in was && tag in now && now == was[tag := now[tag]] && Summary(now[tag], recs, w.rules)
    }
  }

  lemma NothingRead(w: World, state: map<string, Seen>, now: nat)
    ensures Summary(map[], [], w.rules) && Gathered(w, now, []) && Pending(w, state, state, [])
  {
  }

  lemma StillThere(w: World, name: string, start: nat, now: nat)
    requires start <= now && name in w.at(start) && name !in w.at(now)
    ensures !NoneGone(w, now)
  {
  }

  // ------------------------------------------------------------------ a passing read error

  const LINE := Capture("20000101000000", "http://a.uk/", None)
  const A_UK := Key("a.uk", "2000")
  const STAT := Stat(10, 1)

  /** One journal with one line. It never changes, and its first read fails. */
  function Flaky(): World {
    World(Rules({"2000"}, h => Some("a.uk")), (t: nat) => map["j" := STAT], (n: string, size: nat) => [LINE],
          (n: string, t: nat) =>
            if n == "j" && t > 0 then Reading([LINE], Whole) else Reading([], Bad))
  }

  lemma LineDates()
    ensures HasRow([LINE], Flaky().rules, A_UK, LINE.stamp)
  {
    hide Authority;
    assert LINE.stamp[..4] == "2000" && Digits(LINE.stamp);
    assert LINE in [LINE] && Dates(LINE, Flaky().rules, A_UK, LINE.stamp);
  }

  lemma FlakyGrows()
    ensures Growing(Flaky()) && forall u: nat :: NoneGone(Flaky(), u)
  {
  }

  lemma FlakyBatch(u: nat)
    ensures Batch(Flaky(), Flaky().at(u), A_UK, LINE.stamp)
  {
    LineDates();
    hide HasRow;
    var w := Flaky();
    assert "j" in w.at(u) && w.content("j", w.at(u)["j"].size) == [LINE];
  }

  lemma LaterAll(w: World, outputs: Outputs, state: map<string, Seen>, st: map<string, Seen>, recs: seq<Record>,
                 until: nat, later: nat)
    requires until <= later && Gathered(w, until, recs) && Recorded(w, st, until)
    requires Sound(w, outputs, until) && Recorded(w, state, until)
    ensures Gathered(w, later, recs) && Recorded(w, st, later)
    ensures Sound(w, outputs, later) && Recorded(w, state, later)
  {
    Later(w, st, recs, until, later);
    forall k, t | AnyOut(outputs, k, t) ensures From(w, later, k, t) { FromLater(w, until, later, k, t); }
  }

  lemma NoRowRead(k: Key, t: string)
    ensures !RowRead(Flaky(), 0, 0, k, t)
  {
  }

  /** The first run reads nothing: no output has a row, and the journal is recorded as bad. */
  lemma NothingOut(outputs: Outputs, tag: string, recs: seq<Record>)
    requires AllRead(Flaky(), 0, 0, recs)
    requires outputs == map[] ||
      (tag in outputs && outputs == map[tag := outputs[tag]] && Summary(outputs[tag], recs, Flaky().rules))
    ensures forall k, t :: !AnyOut(outputs, k, t)
  {
    forall k, t ensures !HasRow(recs, Flaky().rules, k, t) {
      NoRowRead(k, t);
    }
  }

  lemma FlakyHeld(state: map<string, Seen>, now: nat)
    requires Recorded(Flaky(), state, now) && Visited(state, Flaky().at(now))
    ensures forall u: nat :: Held(state, Flaky().at(u))
    ensures forall t: nat, u: nat :: Steady(Flaky(), state, t, u)
  {
    assert "j" in Flaky().at(now);
    assert state["j"].stat == STAT by { assert RecordedAt(Flaky(), "j", state["j"].stat, now); }
  }

  /** A read error that passes: the journal is marked bad, and though it could be read since, an unchanged stat
      keeps it unread, and the outputs lack what one conversion of the folder would have. */
  method BadReadLost() returns (c: Converter, read: nat)
    ensures c.w == Flaky() && c.Valid() && NoneGone(c.w, c.now) && Held(c.state, c.w.at(c.now)) && read == 0
    ensures forall t: nat :: t >= c.now ==> c.w.read("j", t) == Reading(c.w.content("j", STAT.size), Whole)
    ensures Batch(c.w, c.w.at(c.now), A_UK, LINE.stamp) && !Out(c.outputs, A_UK, LINE.stamp)
  {
    hide Growing, NoneGone, Held, Batch, AnyOut, Visited, Recorded, Steady, Sound, Complete, Covered, Summary, AllRead;
    FlakyGrows();
    c := new Converter(Flaky(), 0);
    var same, bad;
    ghost var recs;
    read, same, bad, recs := c.Run("first", (t: nat) => 0, Never);
    assert c.outputs == map[] || c.outputs == map["first" := c.outputs["first"]];
    NothingOut(c.outputs, "first", recs);
    FlakyHeld(c.state, 0);
    c.Wait(1);
    read, same, bad, recs := c.Run("second", (t: nat) => 0, Never);
    FlakyBatch(c.now);
  }
}
