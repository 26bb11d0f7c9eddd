/** The resume-key walk of one platform: its journal, its saved key, and what a kill leaves. */
module PlatformWalk {
  import opened Strings

  type Row = seq<string>

  const SPACE: set<char> := {' ', '\t', '\r', '\n'}

  // ------------------------------------------------------------------ one page of the index

  predicate Blank(line: string) {
    forall i :: 0 <= i < |line| ==> line[i] in SPACE
  }

  /** `split()`: the runs of characters that are not space. */
  function Words(line: string, word: string): Row {
    if line == [] then if word == [] then [] else [word]
    else if line[0] in SPACE then (if word == [] then [] else [word]) + Words(line[1..], [])
    else Words(line[1..], word + [line[0]])
  }

  function Lstrip(line: string): string {
    if line != [] && line[0] in SPACE then Lstrip(line[1..]) else line
  }

  function Rstrip(line: string): string {
    if line != [] && line[|line| - 1] in SPACE then Rstrip(line[..|line| - 1]) else line
  }

  function Strip(line: string): string {
    Rstrip(Lstrip(line))
  }

  // ------------------------------------------------------------------ words and ends of a line

  predicate White(c: char) {
    c == ' ' || c == '\t' || c == '\r' || c == '\n'
  }

  predicate AllWhite(s: string) {
    forall c :: c in s ==> White(c)
  }

  predicate NoWhite(s: string) {
    forall c :: c in s ==> !White(c)
  }

  lemma BlankExactly(line: string)
    ensures Blank(line) <==> AllWhite(line)
  {
    assert forall i :: 0 <= i < |line| ==> line[i] in line;
  }

  lemma {:induction false} WordGrows(word: string, w: string, rest: string)
    requires NoWhite(w) && word + w != "" && (rest == "" || White(rest[0]))
    ensures Words(w + rest, word) == [word + w] + Words(rest, [])
    decreases |w|
  {
    if w == "" {
      assert w + rest == rest && word + w == word;
      if rest != "" { assert Words(rest, []) == Words(rest[1..], []); }
    } else {
      assert w[0] in w && (w + rest)[0] == w[0] && (w + rest)[1..] == w[1..] + rest;
      assert forall c :: c in w[1..] ==> c in w;
      WordGrows(word + [w[0]], w[1..], rest);
      assert word + [w[0]] + w[1..] == word + w;
    }
  }

  /** The words of a line: none of a white one, and else its first run of characters that are not white before the
      words of what follows. */
  lemma {:induction false} WordsExactly(gap: string, w: string, rest: string)
    requires AllWhite(gap) && NoWhite(w) && (rest == "" || White(rest[0]))
    ensures Words(gap + w + rest, []) == if w == "" then Words(rest, []) else [w] + Words(rest, [])
    ensures Words(gap, []) == []
    decreases |gap|
  {
    if gap == "" {
      assert gap + w + rest == w + rest;
      if w == "" { assert w + rest == rest; } else { WordGrows([], w, rest); }
      assert [] + w == w;
    } else {
      assert gap[0] in gap && (gap + w + rest)[1..] == gap[1..] + w + rest && (gap + w + rest)[0] == gap[0];
      assert forall c :: c in gap[1..] ==> c in gap;
      WordsExactly(gap[1..], w, rest);
    }
  }

  lemma {:induction false} LstripOf(line: string) returns (front: string)
    ensures line == front + Lstrip(line) && AllWhite(front)
    ensures Lstrip(line) == "" || !White(Lstrip(line)[0])
  {
    if line != "" && White(line[0]) {
      front := LstripOf(line[1..]);
      front := [line[0]] + front;
    } else {
      front := "";
    }
  }

  lemma {:induction false} RstripOf(line: string) returns (back: string)
    ensures line == Rstrip(line) + back && AllWhite(back)
    ensures var r := Rstrip(line); r == "" || (!White(r[|r| - 1]) && r[0] == line[0])
  {
    if line != "" && White(line[|line| - 1]) {
      back := RstripOf(line[..|line| - 1]);
      back := back + [line[|line| - 1]];
    } else {
      back := "";
    }
  }

  /** Stripping takes white from both ends, all of it, and nothing else. */
  lemma StripExactly(line: string) returns (front: string, back: string)
    ensures line == front + Strip(line) + back && AllWhite(front) && AllWhite(back)
    ensures var r := Strip(line); r == "" || (!White(r[0]) && !White(r[|r| - 1]))
  {
    front := LstripOf(line);
    back := RstripOf(Lstrip(line));
    hide Lstrip, Rstrip, White;
    assert line == front + (Strip(line) + back);
  }

  function Trimmed(lines: seq<string>): (r: seq<string>)
    ensures r != [] ==> !Blank(r[|r| - 1])
    ensures r <= lines && forall i :: |r| <= i < |lines| ==> Blank(lines[i])
  {
    if lines != [] && Blank(lines[|lines| - 1]) then Trimmed(lines[..|lines| - 1]) else lines
  }

  function RowsOf(lines: seq<string>): seq<Row> {
    if lines == [] then []
    else (if Blank(lines[0]) then [] else [Words(lines[0], [])]) + RowsOf(lines[1..])
  }

  /** The rows, and the resume key when a blank line sets the last line off. */
  function PageOf(lines: seq<string>): (seq<Row>, Option<string>) {
    var t := Trimmed(lines);
    if |t| >= 2 && Blank(t[|t| - 2]) then (RowsOf(t[..|t| - 2]), Some(Strip(t[|t| - 1]))) else (RowsOf(t), None)
  }

  lemma {:induction false} RowsOfMore(lines: seq<string>, line: string)
    ensures RowsOf(lines + [line]) == RowsOf(lines) + if Blank(line) then [] else [Words(line, [])]
  {
    if lines == [] {
      assert [line][1..] == [] && RowsOf([]) == [];
    } else {
      RowsOfMore(lines[1..], line);
      assert (lines + [line])[1..] == lines[1..] + [line];
    }
  }

  method SplitPage(body: seq<string>) returns (rows: seq<Row>, key: Option<string>)
    ensures (rows, key) == PageOf(body)
  {
    var lines := body;
    while lines != [] && Blank(lines[|lines| - 1])
      invariant Trimmed(lines) == Trimmed(body)
    {
      lines := lines[..|lines| - 1];
    }
    key := None;
    if |lines| >= 2 && Blank(lines[|lines| - 2]) {
      key := Some(Strip(lines[|lines| - 1]));
      lines := lines[..|lines| - 2];
    }
    rows := [];
    for i := 0 to |lines|
      invariant rows == RowsOf(lines[..i])
    {
      RowsOfMore(lines[..i], lines[i]);
      assert lines[..i + 1] == lines[..i] + [lines[i]];
      if !Blank(lines[i]) { rows := rows + [Words(lines[i], [])]; }
    }
    assert lines[..|lines|] == lines;
  }

  /** Line i is the body's last text and follows a blank line. */
  predicate KeyAt(lines: seq<string>, i: nat) {
    0 < i < |lines| && !Blank(lines[i]) && Blank(lines[i - 1]) && forall j :: i < j < |lines| ==> Blank(lines[j])
  }

  lemma TrimmedIs(lines: seq<string>, i: nat)
    requires i < |lines| && !Blank(lines[i]) && forall j :: i < j < |lines| ==> Blank(lines[j])
    ensures Trimmed(lines) == lines[..i + 1]
  {
    var t := Trimmed(lines);
    if t != [] { assert t[|t| - 1] == lines[|t| - 1]; }
    assert t == lines[..|t|];
  }

  /** A key is found exactly when the last text of the body stands alone behind a blank line, and every
      other text is a row, in order. */
  lemma PageExact(lines: seq<string>, i: nat)
    ensures KeyAt(lines, i) ==> PageOf(lines) == (RowsOf(lines[..i]), Some(Strip(lines[i])))
    ensures PageOf(lines).1.Some? ==> KeyAt(lines, |Trimmed(lines)| - 1)
    ensures PageOf(lines).1.None? ==> PageOf(lines).0 == RowsOf(lines)
  {
    hide Blank, Strip, Trimmed;
    if KeyAt(lines, i) {
      TrimmedIs(lines, i);
      var front := lines[..i - 1];
      assert lines[..i + 1][..|lines[..i + 1]| - 2] == front;
      RowsOfMore(front, lines[i - 1]);
      assert lines[..i] == front + [lines[i - 1]] && RowsOf(front) + [] == RowsOf(front);
    }
    RowsOfTrimmed(lines);
  }

  lemma {:induction false} RowsOfTrimmed(lines: seq<string>)
    ensures RowsOf(Trimmed(lines)) == RowsOf(lines)
  {
    if lines != [] && Blank(lines[|lines| - 1]) {
      var front := lines[..|lines| - 1];
      RowsOfTrimmed(front);
      RowsOfMore(front, lines[|lines| - 1]);
      assert lines == front + [lines[|lines| - 1]];
    }
  }

  // ------------------------------------------------------------------ the platform and its files

  datatype Pair = Pair(host: string, year: string)

  predicate Digits(s: string) {
    forall i :: 0 <= i < |s| ==> '0' <= s[i] <= '9'
  }

  predicate EndsWith(s: string, tail: string) {
    |tail| <= |s| && s[|s| - |tail|..] == tail
  }

  /** The index of one platform, where each resume key stands in it, and the host a url names. */
  datatype World = World(seed: string, index: seq<Row>, pos: map<string, nat>, hostOf: string -> Option<string>)

  /** The (host, year) of a row with a full stamp on a host of the platform. */
  function PairOf(w: World, row: Row): Option<Pair> {
    if |row| < 3 || |row[1]| != 14 || !Digits(row[1]) then None
    else
      var host := w.hostOf(row[0]);
      if host.None? || host.value == "" || !(host.value == w.seed || EndsWith(host.value, "." + w.seed)) then None
      else Some(Pair(host.value, row[1][..4]))
  }

  /** A host of the platform: the seed itself, or a name under it. */
  ghost predicate OnPlatform(w: World, host: string) {
    host != "" && (host == w.seed || exists sub: string :: host == sub + "." + w.seed)
  }

  lemma EndsExactly(s: string, tail: string)
    ensures EndsWith(s, tail) <==> exists sub: string :: s == sub + tail
  {
    if EndsWith(s, tail) { assert s == s[..|s| - |tail|] + tail; }
  }

  /** A row is of a pair exactly when it has three fields, a full stamp that starts with the year, and a url whose host
      is on the platform. */
  lemma PairExactly(w: World, row: Row, host: string, year: string)
    ensures PairOf(w, row) == Some(Pair(host, year)) <==>
      && |row| >= 3 && |row[1]| == 14 && (forall c :: c in row[1] ==> '0' <= c <= '9') && year == row[1][..4]
      && w.hostOf(row[0]) == Some(host) && OnPlatform(w, host)
  {
    hide EndsWith;
    EndsExactly(host, "." + w.seed);
    assert forall sub: string :: sub + ("." + w.seed) == sub + "." + w.seed;
    if |row| >= 3 { assert forall i :: 0 <= i < |row[1]| ==> row[1][i] in row[1]; }
  }

  function At(w: World, key: Option<string>): nat {
    if key.None? || key.value !in w.pos then 0 else w.pos[key.value]
  }

  /** No key, or one the index has given out. */
  predicate Known(w: World, key: Option<string>) {
    key.None? || key.value in w.pos
  }

  datatype State = State(key: Option<string>, pages: nat, written: nat, failedRuns: nat)

  /** The state file, the final journals, the `.part` journals and the two markers. */
  datatype Disk = Disk(saved: Option<State>, finals: seq<seq<Row>>, parts: seq<seq<Row>>, done: bool, refused: bool)

  function Saved(d: Disk): State {
    if d.saved.Some? then d.saved.value else State(None, 0, 0, 0)
  }

  ghost predicate InJournal(w: World, d: Disk, p: Pair) {
    exists j, row :: (j in d.finals || j in d.parts) && row in j && PairOf(w, row) == Some(p)
  }

  /** Every pair of the first n index rows is in a journal. */
  ghost predicate Kept(w: World, d: Disk, n: nat) {
    forall i :: 0 <= i < n && i < |w.index| && PairOf(w, w.index[i]).Some? ==>
      InJournal(w, d, PairOf(w, w.index[i]).value)
  }

  /** No row before the saved key is missing. */
  ghost predicate Safe(w: World, d: Disk) {
    Known(w, Saved(d).key) && Kept(w, d, At(w, Saved(d).key))
  }

  /** What a kill leaves: the open journal may hold any number of the rows not flushed yet. */
  ghost predicate Leaves(d: Disk, buffer: seq<Row>, left: Disk) {
    || left == d
    || (d.parts != [] &&
        exists k :: 0 <= k <= |buffer| && left == d.(parts := [d.parts[0] + buffer[..k]] + d.parts[1..]))
  }

  /** Every row of one disk's journals is in a journal of the other. */
  ghost predicate Within(d: Disk, d': Disk) {
    forall j, row :: (j in d.finals || j in d.parts) && row in j ==> HasRow(d', row)
  }

  ghost predicate HasRow(d: Disk, row: Row) {
    exists j :: (j in d.finals || j in d.parts) && row in j
  }

  lemma StillKept(w: World, d: Disk, d': Disk, n: nat)
    requires Kept(w, d, n) && Within(d, d')
    ensures Kept(w, d', n)
  {
    forall p | InJournal(w, d, p) ensures InJournal(w, d', p) {
      var j, row :| (j in d.finals || j in d.parts) && row in j && PairOf(w, row) == Some(p);
      assert HasRow(d', row);
    }
  }

  /** A kill at any moment leaves a disk that is as safe as what was flushed. */
  lemma KillSafe(w: World, d: Disk, buffer: seq<Row>, left: Disk)
    requires Safe(w, d) && Leaves(d, buffer, left)
    ensures Safe(w, left)
  {
    if left != d {
      var k :| 0 <= k <= |buffer| && left == d.(parts := [d.parts[0] + buffer[..k]] + d.parts[1..]);
      forall j, row | (j in d.finals || j in d.parts) && row in j ensures HasRow(left, row) {
        if j in d.parts {
          var i :| 0 <= i < |d.parts| && d.parts[i] == j;
          assert left.parts[i] in left.parts && row in left.parts[i];
        }
      }
      StillKept(w, d, left, At(w, Saved(d).key));
    }
  }

  // ------------------------------------------------------------------ what is written

  function Pairs(w: World, rows: seq<Row>): set<Pair> {
    set row | row in rows && PairOf(w, row).Some? :: PairOf(w, row).value
  }

  /** The rows to write: the first of each pair not seen before. */
  function Fresh(w: World, rows: seq<Row>, seen: set<Pair>): seq<Row> {
    if rows == [] then []
    else
      var front, last := rows[..|rows| - 1], rows[|rows| - 1];
      var p := PairOf(w, last);
      Fresh(w, front, seen) + if p.Some? && p.value !in seen + Pairs(w, front) then [last] else []
  }

  lemma PairsMore(w: World, rows: seq<Row>, row: Row)
    ensures Pairs(w, rows + [row]) == Pairs(w, rows) + if PairOf(w, row).Some? then {PairOf(w, row).value} else {}
  {
  }

  lemma FreshNone(w: World, seen: set<Pair>)
    ensures Fresh(w, [], seen) == [] && Pairs(w, []) == {}
  {
  }

  lemma FreshMore(w: World, rows: seq<Row>, row: Row, seen: set<Pair>)
    ensures var p := PairOf(w, row);
      Fresh(w, rows + [row], seen) ==
      Fresh(w, rows, seen) + if p.Some? && p.value !in seen + Pairs(w, rows) then [row] else []
  {
    assert (rows + [row])[..|rows|] == rows;
  }

  /** The rows written have the new pairs and no others, each once. */
  lemma {:induction false} FreshPairs(w: World, rows: seq<Row>, seen: set<Pair>)
    ensures Pairs(w, Fresh(w, rows, seen)) == Pairs(w, rows) - seen
    ensures forall row :: row in Fresh(w, rows, seen) ==> row in rows && PairOf(w, row).Some?
    ensures forall i, j :: 0 <= i < j < |Fresh(w, rows, seen)| ==>
      PairOf(w, Fresh(w, rows, seen)[i]) != PairOf(w, Fresh(w, rows, seen)[j])
  {
    if rows != [] {
      var front, last := rows[..|rows| - 1], rows[|rows| - 1];
      assert rows == front + [last];
      hide PairOf;
      FreshPairs(w, front, seen);
      PairsMore(w, front, last);
      var was := Fresh(w, front, seen);
      PairsMore(w, was, last);
      forall i | 0 <= i < |was| ensures PairOf(w, was[i]).Some? && PairOf(w, was[i]).value in Pairs(w, was) {
        assert was[i] in was;
      }
    }
  }

  // ------------------------------------------------------------------ one answer

  datatype Reply = Reply(status: string, lines: seq<string>)

  const THROTTLES := {"HTTP429", "HTTP503", "REFUSED"}
  const REFUSALS := {"HTTP400", "HTTP403", "HTTP404"}
  const MAX_THROTTLED := 5
  const MAX_FAILS := 3
  const MAX_FAILED_RUNS := 3

  /** An answer to a key gives index rows from the key's place on, any number of them, and at most the
      key of the place where they end. */
  ghost predicate Honest(w: World, key: Option<string>, r: Reply) {
    r.status == "200" ==>
      var (rows, next) := PageOf(r.lines);
      var p := At(w, key);
      && p + |rows| <= |w.index| && rows == w.index[p..p + |rows|]
      && (next.Some? ==> Known(w, next) && At(w, next) == p + |rows|)
  }

  ghost predicate HonestWeb(w: World, serve: (nat, Option<string>) -> Reply) {
    forall n: nat, key :: Known(w, key) ==> Honest(w, key, serve(n, key))
  }

  /** One 200 answer: the key asked, the key that came back, and the index row it ended before. */
  datatype Reading = Reading(asked: Option<string>, next: Option<string>, upto: nat)

  /** The index has said the end: once to a walk from the start, twice running to a resumed one. */
  predicate Ended(log: seq<Reading>) {
    && log != []
    && var z := log[|log| - 1];
       && z.next.None?
       && (z.asked.Some? ==> |log| >= 2 && log[|log| - 2].asked == z.asked && log[|log| - 2].next.None?)
  }

  /** One of the answers that said the end reached the end. */
  predicate Reached(log: seq<Reading>, n: nat)
    requires Ended(log)
  {
    var z := log[|log| - 1];
    z.upto == n || (z.asked.Some? && log[|log| - 2].upto == n)
  }

  /** A throttled or a refused connection, and an answer that no later one can mend. */
  predicate IsThrottle(status: string) {
    status == "HTTP429" || status == "HTTP503" || status == "REFUSED"
  }

  predicate IsRefusal(status: string) {
    status == "HTTP400" || status == "HTTP403" || status == "HTTP404"
  }

  /** Throttles since the last 200. */
  function Throttled(statuses: seq<string>): nat {
    if statuses == [] then 0
    else
      var z := statuses[|statuses| - 1];
      if z == "200" then 0 else Throttled(statuses[..|statuses| - 1]) + if IsThrottle(z) then 1 else 0
  }

  /** Other failures since the last 200. */
  function Failed(statuses: seq<string>): nat {
    if statuses == [] then 0
    else
      var z := statuses[|statuses| - 1];
      if z == "200" then 0 else Failed(statuses[..|statuses| - 1]) + if IsThrottle(z) then 0 else 1
  }

  lemma Counted(statuses: seq<string>, z: string)
    ensures Throttled(statuses + [z]) == if z == "200" then 0 else Throttled(statuses) + if z in THROTTLES then 1 else 0
    ensures Failed(statuses + [z]) == if z == "200" then 0 else Failed(statuses) + if z in THROTTLES then 0 else 1
    ensures Throttled([]) == Failed([]) == 0
  {
    assert (statuses + [z])[..|statuses|] == statuses;
  }

  datatype Result = Done | Deadline | Refused | Parked | Resumable | TooManyThrottles

  /** How a run ends before its last rows are counted as failed or parked. */
  datatype Ending = Finished | GaveUp | WasRefused | WasThrottled | OutOfTime

  /** A run: its ending, the last key, its 200 answers and every status. */
  datatype Course = Course(ending: Ending, key: Option<string>, log: seq<Reading>, statuses: seq<string>)

  /** The turns of the loop from the n-th on. */
  function Turns(w: World, serve: (nat, Option<string>) -> Reply, paused: nat -> bool, ticks: nat, n: nat,
                 key: Option<string>, throttled: nat, fails: nat, endedOnce: bool): Course
    decreases ticks - n
  {
    if n >= ticks then Course(OutOfTime, key, [], [])
    else if paused(n + 1) then Turns(w, serve, paused, ticks, n + 1, key, throttled, fails, endedOnce)
    else
      var r := serve(n + 1, key);
      if r.status in THROTTLES then
        if throttled + 1 >= MAX_THROTTLED then Course(WasThrottled, key, [], [r.status])
        else Behind([], r.status, Turns(w, serve, paused, ticks, n + 1, key, throttled + 1, fails, endedOnce))
      else if r.status in REFUSALS then Course(WasRefused, key, [], [r.status])
      else if r.status != "200" then
        if fails + 1 >= MAX_FAILS then Course(GaveUp, key, [], [r.status])
        else Behind([], r.status, Turns(w, serve, paused, ticks, n + 1, key, throttled, fails + 1, endedOnce))
      else
        var (rows, next) := PageOf(r.lines);
        var log := [Reading(key, next, At(w, key) + |rows|)];
        if next.None? && key.Some? && !endedOnce then
          Behind(log, r.status, Turns(w, serve, paused, ticks, n + 1, key, 0, 0, true))
        else if next.None? then Course(Finished, next, log, [r.status])
        else Behind(log, r.status, Turns(w, serve, paused, ticks, n + 1, next, 0, 0, false))
  }

  function Behind(log: seq<Reading>, status: string, c: Course): Course {
    c.(log := log + c.log, statuses := [status] + c.statuses)
  }

  function After(log: seq<Reading>, statuses: seq<string>, c: Course): Course {
    c.(log := log + c.log, statuses := statuses + c.statuses)
  }

  function EndingOf(r: Result): Ending {
    match r
    case Done => Finished
    case Deadline => OutOfTime
    case Refused => WasRefused
    case TooManyThrottles => WasThrottled
    case _ => GaveUp
  }

  lemma AfterBehind(log: seq<Reading>, statuses: seq<string>, more: seq<Reading>, status: string, c: Course)
    ensures After(log, statuses, Behind(more, status, c)) == After(log + more, statuses + [status], c)
  {
    assert log + (more + c.log) == (log + more) + c.log;
    assert statuses + ([status] + c.statuses) == (statuses + [status]) + c.statuses;
  }

  lemma AfterNothing(c: Course)
    ensures After([], [], c) == c
  {
  }

  predicate SaidEnd(z: Reading, key: Option<string>) {
    key.Some? && z.asked == key && z.next.None?
  }

  /** One answered turn, behind the turns so far. */
  lemma AfterTurn(w: World, serve: (nat, Option<string>) -> Reply, paused: nat -> bool, ticks: nat, n: nat,
                  key: Option<string>, throttled: nat, fails: nat, endedOnce: bool, log: seq<Reading>,
                  statuses: seq<string>)
    requires n < ticks && !paused(n + 1)
    ensures var r := serve(n + 1, key); var (rows, next) := PageOf(r.lines);
      var all := log + [Reading(key, next, At(w, key) + |rows|)]; var more := statuses + [r.status];
      After(log, statuses, Turns(w, serve, paused, ticks, n, key, throttled, fails, endedOnce)) ==
      (if r.status in THROTTLES then
         if throttled + 1 >= MAX_THROTTLED then Course(WasThrottled, key, log, more)
         else After(log, more, Turns(w, serve, paused, ticks, n + 1, key, throttled + 1, fails, endedOnce))
       else if r.status in REFUSALS then Course(WasRefused, key, log, more)
       else if r.status != "200" then
         if fails + 1 >= MAX_FAILS then Course(GaveUp, key, log, more)
         else After(log, more, Turns(w, serve, paused, ticks, n + 1, key, throttled, fails + 1, endedOnce))
       else if next.None? && key.Some? && !endedOnce then
         After(all, more, Turns(w, serve, paused, ticks, n + 1, key, 0, 0, true))
       else if next.None? then Course(Finished, next, all, more)
       else After(all, more, Turns(w, serve, paused, ticks, n + 1, next, 0, 0, false)))
  {
    hide PageOf, At;
    var r := serve(n + 1, key);
    var (rows, next) := PageOf(r.lines);
    var one := [Reading(key, next, At(w, key) + |rows|)];
    if r.status in THROTTLES {
      AfterBehind(log, statuses, [], r.status,
                  Turns(w, serve, paused, ticks, n + 1, key, throttled + 1, fails, endedOnce));
    } else if r.status in REFUSALS {
    } else if r.status != "200" {
      AfterBehind(log, statuses, [], r.status,
                  Turns(w, serve, paused, ticks, n + 1, key, throttled, fails + 1, endedOnce));
    } else if next.None? && key.Some? && !endedOnce {
      AfterBehind(log, statuses, one, r.status, Turns(w, serve, paused, ticks, n + 1, key, 0, 0, true));
    } else if next.Some? {
      AfterBehind(log, statuses, one, r.status, Turns(w, serve, paused, ticks, n + 1, next, 0, 0, false));
    }
    assert log + [] == log;
  }

  /** How a turn that is not answered with 200 ends, failedRuns being those after it. */
  function NotOkResult(status: string, throttled: nat, fails: nat, failedRuns: nat): Result {
    if status in THROTTLES then (if throttled == MAX_THROTTLED then TooManyThrottles else Deadline)
    else if status in REFUSALS then Refused
    else if fails < MAX_FAILS then Deadline
    else if failedRuns >= MAX_FAILED_RUNS then Parked else Resumable
  }

  /** The fifth throttle ends the run, a refusal does at once, and the third other failure gives it up, for good once
      three runs were; after any other turn the run goes on. */
  lemma NotOkExactly(status: string, throttled: nat, fails: nat, failedRuns: nat)
    requires throttled <= 5 && fails <= 3
    ensures var r := NotOkResult(status, throttled, fails, failedRuns);
      && (r.TooManyThrottles? <==> IsThrottle(status) && throttled == 5)
      && (r.Refused? <==> IsRefusal(status))
      && (r.Parked? <==> !IsThrottle(status) && !IsRefusal(status) && fails == 3 && failedRuns >= 3)
      && (r.Resumable? <==> !IsThrottle(status) && !IsRefusal(status) && fails == 3 && failedRuns < 3)
      && !r.Done?
  {
  }

  /** Such a turn, by its result. */
  lemma AfterNotOk(w: World, serve: (nat, Option<string>) -> Reply, paused: nat -> bool, ticks: nat, n: nat,
                   key: Option<string>, throttled: nat, fails: nat, endedOnce: bool, log: seq<Reading>,
                   statuses: seq<string>, failedRuns: nat)
    requires n < ticks && !paused(n + 1) && serve(n + 1, key).status != "200"
    requires throttled < MAX_THROTTLED && fails < MAX_FAILS
    ensures var status := serve(n + 1, key).status; var more := statuses + [status];
      var throttled' := throttled + if status in THROTTLES then 1 else 0;
      var fails' := fails + if status in THROTTLES then 0 else 1;
      var result := NotOkResult(status, throttled', fails', failedRuns);
      After(log, statuses, Turns(w, serve, paused, ticks, n, key, throttled, fails, endedOnce)) ==
      if result.Deadline? then
        After(log, more, Turns(w, serve, paused, ticks, n + 1, key, throttled', fails', endedOnce))
      else Course(EndingOf(result), key, log, more)
  {
    AfterTurn(w, serve, paused, ticks, n, key, throttled, fails, endedOnce, log, statuses);
    hide Turns, After, PageOf, At;
  }

  /** A turn answered with 200, by what it brings. */
  lemma AfterOk(w: World, serve: (nat, Option<string>) -> Reply, paused: nat -> bool, ticks: nat, n: nat,
                key: Option<string>, throttled: nat, fails: nat, endedOnce: bool, log: seq<Reading>,
                statuses: seq<string>)
    requires n < ticks && !paused(n + 1) && serve(n + 1, key).status == "200"
    ensures var r := serve(n + 1, key); var (rows, next) := PageOf(r.lines);
      var all := log + [Reading(key, next, At(w, key) + |rows|)]; var more := statuses + [r.status];
      var again := next.None? && key.Some? && !endedOnce;
      After(log, statuses, Turns(w, serve, paused, ticks, n, key, throttled, fails, endedOnce)) ==
      if next.None? && !again then Course(Finished, next, all, more)
      else After(all, more, Turns(w, serve, paused, ticks, n + 1, if again then key else next, 0, 0, again))
  {
    AfterTurn(w, serve, paused, ticks, n, key, throttled, fails, endedOnce, log, statuses);
    hide Turns, After, PageOf, At;
  }

  /** A paused turn, and the end of the time. */
  lemma AfterNoTurn(w: World, serve: (nat, Option<string>) -> Reply, paused: nat -> bool, ticks: nat, n: nat,
                    key: Option<string>, throttled: nat, fails: nat, endedOnce: bool, log: seq<Reading>,
                    statuses: seq<string>)
    ensures n < ticks && paused(n + 1) ==>
      Turns(w, serve, paused, ticks, n, key, throttled, fails, endedOnce) ==
      Turns(w, serve, paused, ticks, n + 1, key, throttled, fails, endedOnce)
    ensures n >= ticks ==>
      After(log, statuses, Turns(w, serve, paused, ticks, n, key, throttled, fails, endedOnce)) ==
      Course(OutOfTime, key, log, statuses)
  {
    assert log + [] == log && statuses + [] == statuses;
  }

  /** The turns from here on, behind the turns so far, are the whole run. */
  ghost predicate Remaining(w: World, serve: (nat, Option<string>) -> Reply, paused: nat -> bool, ticks: nat, n: nat,
                            key: Option<string>, throttled: nat, fails: nat, endedOnce: bool, log: seq<Reading>,
                            statuses: seq<string>, whole: Course) {
    After(log, statuses, Turns(w, serve, paused, ticks, n, key, throttled, fails, endedOnce)) == whole
  }

  lemma RemainsAll(w: World, serve: (nat, Option<string>) -> Reply, paused: nat -> bool, ticks: nat,
                   key: Option<string>)
    ensures Remaining(w, serve, paused, ticks, 0, key, 0, 0, false, [], [],
                      Turns(w, serve, paused, ticks, 0, key, 0, 0, false))
  {
    hide Turns;
    AfterNothing(Turns(w, serve, paused, ticks, 0, key, 0, 0, false));
  }

  lemma RemainsQuiet(w: World, serve: (nat, Option<string>) -> Reply, paused: nat -> bool, ticks: nat, n: nat,
                     key: Option<string>, throttled: nat, fails: nat, endedOnce: bool, log: seq<Reading>,
                     statuses: seq<string>, whole: Course)
    ensures n < ticks && paused(n + 1) &&
            Remaining(w, serve, paused, ticks, n, key, throttled, fails, endedOnce, log, statuses, whole) ==>
            Remaining(w, serve, paused, ticks, n + 1, key, throttled, fails, endedOnce, log, statuses, whole)
    ensures n >= ticks &&
            Remaining(w, serve, paused, ticks, n, key, throttled, fails, endedOnce, log, statuses, whole) ==>
            whole == Course(OutOfTime, key, log, statuses)
  {
    hide Turns, After;
    AfterNoTurn(w, serve, paused, ticks, n, key, throttled, fails, endedOnce, log, statuses);
  }

  lemma RemainsNotOk(w: World, serve: (nat, Option<string>) -> Reply, paused: nat -> bool, ticks: nat, n: nat,
                     key: Option<string>, throttled: nat, fails: nat, endedOnce: bool, log: seq<Reading>,
                     statuses: seq<string>, failedRuns: nat, whole: Course)
    requires n < ticks && !paused(n + 1) && serve(n + 1, key).status != "200"
    requires throttled < MAX_THROTTLED && fails < MAX_FAILS
    requires Remaining(w, serve, paused, ticks, n, key, throttled, fails, endedOnce, log, statuses, whole)
    ensures var status := serve(n + 1, key).status; var more := statuses + [status];
      var throttled' := throttled + if status in THROTTLES then 1 else 0;
      var fails' := fails + if status in THROTTLES then 0 else 1;
      var result := NotOkResult(status, throttled', fails', failedRuns);
      if result.Deadline? then
        && throttled' < MAX_THROTTLED && fails' < MAX_FAILS
        && Remaining(w, serve, paused, ticks, n + 1, key, throttled', fails', endedOnce, log, more, whole)
      else whole == Course(EndingOf(result), key, log, more)
  {
    hide Turns, After;
    AfterNotOk(w, serve, paused, ticks, n, key, throttled, fails, endedOnce, log, statuses, failedRuns);
  }

  lemma RemainsOk(w: World, serve: (nat, Option<string>) -> Reply, paused: nat -> bool, ticks: nat, n: nat,
                  key: Option<string>, throttled: nat, fails: nat, endedOnce: bool, log: seq<Reading>,
                  statuses: seq<string>, whole: Course)
    requires n < ticks && !paused(n + 1) && serve(n + 1, key).status == "200"
    requires Remaining(w, serve, paused, ticks, n, key, throttled, fails, endedOnce, log, statuses, whole)
    ensures var r := serve(n + 1, key); var (rows, next) := PageOf(r.lines);
      var all := log + [Reading(key, next, At(w, key) + |rows|)]; var more := statuses + [r.status];
      var again := next.None? && key.Some? && !endedOnce;
      if next.None? && !again then whole == Course(Finished, next, all, more)
      else Remaining(w, serve, paused, ticks, n + 1, if again then key else next, 0, 0, again, all, more, whole)
  {
    hide Turns, After, PageOf, At;
    AfterOk(w, serve, paused, ticks, n, key, throttled, fails, endedOnce, log, statuses);
  }

  lemma SaidTwice(w: World, d: Disk, log: seq<Reading>, z: Reading)
    requires z.next.None? && Kept(w, d, z.upto)
    requires z.asked.Some? ==> log != [] && SaidEnd(log[|log| - 1], z.asked) && Kept(w, d, log[|log| - 1].upto)
    ensures Ended(log + [z]) && forall n :: Reached(log + [z], n) ==> Kept(w, d, n)
  {
  }

  /** What the turns so far have left open. */
  ghost predicate Underway(key: Option<string>, throttled: nat, fails: nat, endedOnce: bool, log: seq<Reading>,
                           statuses: seq<string>, n: nat) {
    && throttled == Throttled(statuses) < MAX_THROTTLED && fails == Failed(statuses) < MAX_FAILS
    && (statuses != [] ==> statuses[|statuses| - 1] !in REFUSALS)
    && (endedOnce <==> log != [] && log[|log| - 1].next.None?)
    && (endedOnce ==> SaidEnd(log[|log| - 1], key)) && !Ended(log)
    && |log| <= |statuses| <= n
  }

  /** How a run ends is what its answers say: finished exactly when the index has said the end, refused by
      the last status, throttled five times and given up after three failures since the last 200. */
  ghost predicate Fits(c: Course, ticks: nat) {
    && (c.ending.Finished? <==> Ended(c.log))
    && (c.ending.WasRefused? <==> c.statuses != [] && IsRefusal(c.statuses[|c.statuses| - 1]))
    && (c.ending.WasThrottled? <==> Throttled(c.statuses) == 5)
    && (c.ending.GaveUp? <==> Failed(c.statuses) == 3 && !c.ending.WasRefused?)
    && |c.log| <= |c.statuses| <= ticks
  }

  lemma {:induction false} TurnsFit(w: World, serve: (nat, Option<string>) -> Reply, paused: nat -> bool, ticks: nat,
                                    n: nat,
                                    key: Option<string>, throttled: nat, fails: nat, endedOnce: bool,
                                    log: seq<Reading>, statuses: seq<string>)
    requires n <= ticks && Underway(key, throttled, fails, endedOnce, log, statuses, n)
    ensures Fits(After(log, statuses, Turns(w, serve, paused, ticks, n, key, throttled, fails, endedOnce)), ticks)
    decreases ticks - n
  {
    hide PageOf, At, Throttled, Failed, Turns, After;
    AfterNoTurn(w, serve, paused, ticks, n, key, throttled, fails, endedOnce, log, statuses);
    if n == ticks {
    } else if paused(n + 1) {
      TurnsFit(w, serve, paused, ticks, n + 1, key, throttled, fails, endedOnce, log, statuses);
    } else {
      AfterTurn(w, serve, paused, ticks, n, key, throttled, fails, endedOnce, log, statuses);
      var r := serve(n + 1, key);
      var (rows, next) := PageOf(r.lines);
      var all, more := log + [Reading(key, next, At(w, key) + |rows|)], statuses + [r.status];
      Counted(statuses, r.status);
      if r.status in THROTTLES {
        if throttled + 1 < MAX_THROTTLED {
          TurnsFit(w, serve, paused, ticks, n + 1, key, throttled + 1, fails, endedOnce, log, more);
        }
      } else if r.status in REFUSALS {
      } else if r.status != "200" {
        if fails + 1 < MAX_FAILS {
          TurnsFit(w, serve, paused, ticks, n + 1, key, throttled, fails + 1, endedOnce, log, more);
        }
      } else if next.None? && key.Some? && !endedOnce {
        TurnsFit(w, serve, paused, ticks, n + 1, key, 0, 0, true, all, more);
      } else if next.Some? {
        TurnsFit(w, serve, paused, ticks, n + 1, next, 0, 0, false, all, more);
      }
    }
  }

  /** Every run fits: in particular the done marker of a resumed walk needs the end said twice running. */
  lemma CourseFits(w: World, serve: (nat, Option<string>) -> Reply, paused: nat -> bool, ticks: nat,
                   key: Option<string>)
    ensures Fits(Turns(w, serve, paused, ticks, 0, key, 0, 0, false), ticks)
  {
    Counted([], "");
    TurnsFit(w, serve, paused, ticks, 0, key, 0, 0, false, [], []);
    AfterNothing(Turns(w, serve, paused, ticks, 0, key, 0, 0, false));
  }

  datatype Snap = Snap(disk: Disk, buffer: seq<Row>)

  /** Whatever write a kill follows, every row before the saved key is in a journal it leaves. */
  ghost predicate KillsSafe(w: World, trace: seq<Snap>) {
    forall s, left :: s in trace && Leaves(s.disk, s.buffer, left) ==> Safe(w, left)
  }

  ghost predicate AllSafe(w: World, trace: seq<Snap>) {
    forall s :: s in trace ==> Safe(w, s.disk)
  }

  lemma AllKillsSafe(w: World, trace: seq<Snap>)
    requires AllSafe(w, trace)
    ensures KillsSafe(w, trace)
  {
    forall s, left | s in trace && Leaves(s.disk, s.buffer, left) ensures Safe(w, left) {
      KillSafe(w, s.disk, s.buffer, left);
    }
  }

  /** The journals and the unflushed rows hold every pair seen. */
  ghost predicate Held(w: World, d: Disk, seen: set<Pair>, buffer: seq<Row>) {
    forall p :: p in seen ==> InJournal(w, d, p) || p in Pairs(w, buffer)
  }

  // ------------------------------------------------------------------ the walk

  class Walk {
    const w: World
    const rotate: nat
    var key: Option<string>
    var pages: nat
    var written: nat
    var failedRuns: nat
    var seen: set<Pair>
    var isOpen: bool
    var buffer: seq<Row>
    var sinceRotate: nat
    var disk: Disk
    /** The disk and the unflushed rows after each write. */
    ghost var trace: seq<Snap>

    ghost predicate Shaped()
      reads this
    {
      && (if isOpen then |disk.parts| == 1 else disk.parts == [] && buffer == [])
      && AllSafe(w, trace) && Safe(w, disk) && Held(w, disk, seen, buffer)
      && trace != [] && trace[|trace| - 1] == Snap(disk, buffer)
    }

    ghost predicate Valid()
      reads this
    {
      Shaped() && buffer == [] && key == Saved(disk).key
    }

    /** Start from the saved key, and promote the journals a killed run left. */
    constructor (w: World, d: Disk, rotate: nat)
      requires Safe(w, d)
      ensures Valid() && this.w == w && this.rotate == rotate && AllSafe(w, trace)
      ensures disk == d.(finals := d.finals + d.parts, parts := [])
      ensures State(key, pages, written, failedRuns) == Saved(d) && seen == {} && !isOpen
      ensures d.saved.None? ==> key.None? && pages == 0 && written == 0 && failedRuns == 0
    {
      this.w, this.rotate := w, rotate;
      var state := if d.saved.Some? then d.saved.value else State(None, 0, 0, 0);
      key, pages, written, failedRuns := state.key, state.pages, state.written, state.failedRuns;
      seen, isOpen, buffer, sinceRotate := {}, false, [], 0;
      disk, trace := d, [Snap(d, [])];
      new;
      while disk.parts != []
        invariant trace != [] && trace[|trace| - 1] == Snap(disk, buffer)
        invariant Safe(w, disk) && AllSafe(w, trace) && buffer == [] && !isOpen && seen == {}
        invariant disk.saved == d.saved && disk.done == d.done && disk.refused == d.refused
        invariant disk.finals + disk.parts == d.finals + d.parts
        invariant State(key, pages, written, failedRuns) == Saved(d)
        decreases |disk.parts|
      {
        ghost var before := disk;
        disk := disk.(finals := disk.finals + [disk.parts[0]], parts := disk.parts[1..]);
        assert before.parts == [before.parts[0]] + before.parts[1..];
        Promoted(before, disk);
        StillHeld(w, before, disk);
        trace := trace + [Snap(disk, [])];
      }
    }

    /** The state file is replaced whole. */
    method Save()
      requires Shaped() && Known(w, key) && Kept(w, disk, At(w, key))
      modifies this`disk, this`trace
      ensures Shaped() && old(trace) <= trace
      ensures disk == old(disk).(saved := Some(State(key, pages, written, failedRuns)))
      ensures forall n :: Kept(w, old(disk), n) ==> Kept(w, disk, n)
    {
      ghost var before := disk;
      disk := disk.(saved := Some(State(key, pages, written, failedRuns)));
      assert Within(before, disk);
      StillHeld(w, before, disk);
      trace := trace + [Snap(disk, buffer)];
    }

    /** One row to the journal, opened by the first. */
    method Put(row: Row, p: Pair)
      requires Shaped() && PairOf(w, row) == Some(p)
      modifies this`seen, this`isOpen, this`buffer, this`disk, this`trace
      ensures Shaped() && old(trace) <= trace && isOpen && seen == old(seen) + {p} && buffer == old(buffer) + [row]
      ensures disk == if old(isOpen) then old(disk) else old(disk).(parts := [[]])
      ensures forall n :: Kept(w, old(disk), n) ==> Kept(w, disk, n)
    {
      hide PairOf, Kept;
      ghost var before := disk;
      if !isOpen {
        isOpen, disk := true, disk.(parts := [[]]);
      }
      seen, buffer := seen + {p}, buffer + [row];
      PairsMore(w, old(buffer), row);
      assert Within(before, disk);
      StillHeld(w, before, disk);
      trace := trace + [Snap(disk, buffer)];
    }

    /** Write the page's new pairs to the journal, then flush it. */
    method Write(rows: seq<Row>) returns (count: nat)
      requires Valid()
      modifies this`seen, this`isOpen, this`buffer, this`disk, this`trace, this`written
      ensures Valid() && old(trace) <= trace
      ensures seen == old(seen) + Pairs(w, rows)
      ensures count == |Fresh(w, rows, old(seen))| && written == old(written) + count
      ensures isOpen == (old(isOpen) || count > 0)
      ensures isOpen ==> disk == old(disk).(parts :=
        [(if old(isOpen) then old(disk).parts[0] else []) + Fresh(w, rows, old(seen))])
      ensures !isOpen ==> disk == old(disk)
      ensures forall p :: p in Pairs(w, rows) ==> InJournal(w, disk, p)
      ensures forall n :: Kept(w, old(disk), n) ==> Kept(w, disk, n)
    {
      hide PairOf, Kept, Safe, InJournal, Held, AllSafe, Fresh, Pairs;
      FreshNone(w, old(seen));
      count := 0;
      for i := 0 to |rows|
        invariant Shaped() && old(trace) <= trace && written == old(written)
        invariant seen == old(seen) + Pairs(w, rows[..i])
        invariant buffer == Fresh(w, rows[..i], old(seen)) && count == |buffer|
        invariant isOpen == (old(isOpen) || count > 0)
        invariant forall n :: Kept(w, old(disk), n) ==> Kept(w, disk, n)
        invariant disk == if isOpen && !old(isOpen) then old(disk).(parts := [[]]) else old(disk)
      {
        assert rows[..i + 1] == rows[..i] + [rows[i]];
        PairsMore(w, rows[..i], rows[i]);
        FreshMore(w, rows[..i], rows[i], old(seen));
        var p := PairOf(w, rows[i]);
        if p.Some? && p.value !in seen {
          Put(rows[i], p.value);
          count := count + 1;
        }
      }
      assert rows[..|rows|] == rows;
      Flush();
      written := written + count;
      HeldFlushed(w, disk, seen);
    }

    method Flush()
      requires Shaped()
      modifies this`buffer, this`disk, this`trace
      ensures Shaped() && old(trace) <= trace && buffer == []
      ensures disk == if isOpen then old(disk).(parts := [old(disk).parts[0] + old(buffer)]) else old(disk)
      ensures forall n :: Kept(w, old(disk), n) ==> Kept(w, disk, n)
    {
      if isOpen {
        ghost var before, rows := disk, buffer;
        disk, buffer := disk.(parts := [disk.parts[0] + buffer]), [];
        Flushed(before, rows, disk);
        StillHeld(w, before, disk);
        forall p | p in Pairs(w, rows) ensures InJournal(w, disk, p) {
          var row :| row in rows && PairOf(w, row) == Some(p);
          assert disk.parts[0] in disk.parts && row in disk.parts[0];
        }
        trace := trace + [Snap(disk, buffer)];
      }
    }

    /** Flush the journal and give it its final name. */
    method Close()
      requires Shaped()
      modifies this`buffer, this`disk, this`trace, this`isOpen, this`sinceRotate
      ensures Shaped() && old(trace) <= trace && !isOpen && buffer == [] && sinceRotate == 0
      ensures Saved(disk) == Saved(old(disk)) && disk.done == old(disk).done && disk.refused == old(disk).refused
      ensures forall n :: Kept(w, old(disk), n) ==> Kept(w, disk, n)
      ensures disk == if old(isOpen)
                      then old(disk).(finals := old(disk).finals + [old(disk).parts[0] + old(buffer)], parts := [])
                      else old(disk)
    {
      if isOpen {
        Flush();
        ghost var before := disk;
        disk := disk.(finals := disk.finals + [disk.parts[0]], parts := []);
        Promoted(before, disk);
        StillHeld(w, before, disk);
        isOpen := false;
        trace := trace + [Snap(disk, buffer)];
      }
      sinceRotate := 0;
    }

    /** A final marker file. */
    method Mark(done: bool, refused: bool)
      requires Shaped()
      modifies this`disk, this`trace
      ensures Shaped() && old(trace) <= trace
      ensures disk == old(disk).(done := old(disk).done || done, refused := old(disk).refused || refused)
      ensures forall n :: Kept(w, old(disk), n) ==> Kept(w, disk, n)
    {
      ghost var before := disk;
      disk := disk.(done := disk.done || done, refused := disk.refused || refused);
      assert Within(before, disk);
      StillHeld(w, before, disk);
      trace := trace + [Snap(disk, buffer)];
    }

    /** The third failure of a run: count the run, and park the platform after its third. */
    method GiveUp() returns (result: Result)
      requires Valid()
      modifies this
      ensures Valid() && old(trace) <= trace && !isOpen && key == old(key)
      ensures failedRuns == old(failedRuns) + 1 == Saved(disk).failedRuns
      ensures result == if failedRuns >= 3 then Parked else Resumable
      ensures disk.done == old(disk).done && disk.refused == (old(disk).refused || result.Parked?)
      ensures forall n :: Kept(w, old(disk), n) ==> Kept(w, disk, n)
    {
      hide Kept, InJournal, PairOf, Held, AllSafe;
      failedRuns := failedRuns + 1;
      Save();
      result := Resumable;
      if failedRuns >= MAX_FAILED_RUNS {
        Mark(false, true);
        result := Parked;
      }
      Close();
    }

    /** The page is in the journal: save the next key, and after the last page write the done marker. */
    method Advance(next: Option<string>)
      requires Valid() && Known(w, next) && (next.Some? ==> Kept(w, disk, At(w, next)))
      modifies this
      ensures Valid() && old(trace) <= trace && key == next && pages == old(pages) + 1 && failedRuns == old(failedRuns)
      ensures disk.done == (old(disk).done || next.None?) && disk.refused == old(disk).refused
      ensures next.None? ==> !isOpen
      ensures forall n :: Kept(w, old(disk), n) ==> Kept(w, disk, n)
    {
      hide InJournal, PairOf, Held, AllSafe;
      pages, sinceRotate, key := pages + 1, sinceRotate + 1, next;
      Save();
      if next.None? {
        Close();
        Mark(true, false);
      } else if sinceRotate >= rotate {
        Close();
      }
    }

    /** Any other answer: count it, and give the run up on a refusal, the fifth throttle or the third failure. */
    method NotOk(status: string, throttled: nat, fails: nat) returns (throttled': nat, fails': nat, result: Result)
      requires Valid() && status != "200" && throttled < MAX_THROTTLED && fails < MAX_FAILS
      modifies this
      ensures Valid() && old(trace) <= trace && key == old(key)
      ensures throttled' == throttled + if status in THROTTLES then 1 else 0
      ensures fails' == fails + if status in THROTTLES then 0 else 1
      ensures result == NotOkResult(status, throttled', fails', failedRuns) && !result.Done?
      ensures result.Parked? <==> failedRuns >= 3 && (result.Parked? || result.Resumable?)
      ensures failedRuns == old(failedRuns) + if result.Parked? || result.Resumable? then 1 else 0
      ensures result.Parked? || result.Resumable? ==> Saved(disk).failedRuns == failedRuns
      ensures disk.done == old(disk).done && disk.refused == (old(disk).refused || result.Refused? || result.Parked?)
      ensures forall n :: Kept(w, old(disk), n) ==> Kept(w, disk, n)
    {
      hide Kept, InJournal, PairOf, Held, AllSafe;
      throttled', fails', result := throttled, fails, Deadline;
      if status in THROTTLES {
        throttled' := throttled + 1;
        if throttled' >= MAX_THROTTLED { result := TooManyThrottles; }
        return;
      }
      fails' := fails + 1;
      if status in REFUSALS {
        Mark(false, true);
        result := Refused;
      } else if fails' >= MAX_FAILS {
        result := GiveUp();
      }
    }

    /** A 200 answer: its rows to the journal, whatever key it brings. */
    method Receive(reply: Reply) returns (next: Option<string>, ghost upto: nat)
      requires Valid() && reply.status == "200" && (Known(w, key) ==> Honest(w, key, reply))
      modifies this`seen, this`isOpen, this`buffer, this`disk, this`trace, this`written, this`failedRuns
      ensures failedRuns == 0
      ensures Valid() && old(trace) <= trace && next == PageOf(reply.lines).1 && Known(w, next)
      ensures disk.done == old(disk).done && disk.refused == old(disk).refused
      ensures Kept(w, disk, upto) && upto == At(w, key) + |PageOf(reply.lines).0|
      ensures next.Some? ==> Kept(w, disk, At(w, next))
      ensures forall n :: Kept(w, old(disk), n) ==> Kept(w, disk, n)
    {
      hide InJournal, PairOf, Held, AllSafe, At, PageOf, Fresh, Pairs, Kept;
      failedRuns := 0;
      var rows, key' := SplitPage(reply.lines);
      var count := Write(rows);
      RowsKept(w, disk, rows, At(w, key));
      next, upto := key', At(w, key) + |rows|;
    }

    /** Take a 200 answer in: ask a keyless answer to a resumed walk once more, else move on to its key. */
    method Accept(reply: Reply, endedOnce: bool, ghost log: seq<Reading>)
      returns (done: bool, again: bool, ghost z: Reading)
      requires Valid() && reply.status == "200" && (Known(w, key) ==> Honest(w, key, reply))
      requires endedOnce ==> log != [] && SaidEnd(log[|log| - 1], key) && Kept(w, disk, log[|log| - 1].upto)
      modifies this
      ensures Valid() && old(trace) <= trace && failedRuns == 0
      ensures z == Reading(old(key), PageOf(reply.lines).1, At(w, old(key)) + |PageOf(reply.lines).0|)
      ensures again == (z.next.None? && old(key).Some? && !endedOnce) && done == (z.next.None? && !again)
      ensures key == if again then old(key) else z.next
      ensures again ==> SaidEnd(z, key) && Kept(w, disk, z.upto)
      ensures done ==> Ended(log + [z]) && forall n :: Reached(log + [z], n) ==> Kept(w, disk, n)
      ensures disk.done == (old(disk).done || done) && disk.refused == old(disk).refused
    {
      hide Kept, InJournal, PairOf, Held, AllSafe, At, PageOf, Known, Honest, Shaped, Safe, Saved, Ended, Reached;
      var next, upto := Receive(reply);
      z, done, again := Reading(key, next, upto), false, false;
      if next.None? && key.Some? && !endedOnce {
        again := true;
        return;
      }
      Advance(next);
      if next.None? {
        SaidTwice(w, disk, log, z);
        done := true;
      }
    }

    /** Walk until the index ends, the time is up, or the server fails too often. Each tick is one turn of
        the loop before the deadline: a pause, or a request and its answer. */
    method Run(serve: (nat, Option<string>) -> Reply, paused: nat -> bool, ticks: nat)
      returns (result: Result, ghost log: seq<Reading>, ghost statuses: seq<string>)
      requires Valid() && HonestWeb(w, serve)
      modifies this
      ensures Valid() && old(trace) <= trace && !isOpen
      ensures Course(EndingOf(result), key, log, statuses) ==
        Turns(w, serve, paused, ticks, 0, old(key), 0, 0, false)
      ensures disk.done == (old(disk).done || result.Done?)
      ensures disk.refused == (old(disk).refused || result.Refused? || result.Parked?)
      ensures result.Done? ==> Ended(log) && forall n :: Reached(log, n) ==> Kept(w, disk, n)
      ensures result.Parked? <==> failedRuns >= 3 && (result.Parked? || result.Resumable?)
      ensures result.Parked? || result.Resumable? ==> Saved(disk).failedRuns == failedRuns
      ensures result.Parked? || result.Resumable? ==> failedRuns == (if log != [] then 0 else old(failedRuns)) + 1
    {
      hide Kept, InJournal, PairOf, Held, AllSafe, At, PageOf, Known, Honest, Shaped, Safe, Saved, Turns, After, Ended,
        Reached, Remaining, NotOkResult;
      ghost var whole := Turns(w, serve, paused, ticks, 0, key, 0, 0, false);
      RemainsAll(w, serve, paused, ticks, key);
      var throttled, fails, endedOnce := 0, 0, false;
      log, statuses, result := [], [], Deadline;
      var n := 0;
      while n < ticks
        invariant 0 <= n <= ticks && throttled < MAX_THROTTLED && fails < MAX_FAILS
        invariant Valid() && old(trace) <= trace && result.Deadline?
        invariant Remaining(w, serve, paused, ticks, n, key, throttled, fails, endedOnce, log, statuses, whole)
        invariant disk.done == old(disk).done && disk.refused == old(disk).refused
        invariant failedRuns == if log != [] then 0 else old(failedRuns)
        invariant endedOnce ==> log != [] && SaidEnd(log[|log| - 1], key) && Kept(w, disk, log[|log| - 1].upto)
      {
        RemainsQuiet(w, serve, paused, ticks, n, key, throttled, fails, endedOnce, log, statuses, whole);
        n := n + 1;
        if paused(n) {
          Close();
          continue;
        }
        var reply := serve(n, key);
        if reply.status != "200" {
          ghost var t, f := throttled, fails;
          throttled, fails, result := NotOk(reply.status, throttled, fails);
          RemainsNotOk(w, serve, paused, ticks, n - 1, key, t, f, endedOnce, log, statuses, failedRuns, whole);
          statuses := statuses + [reply.status];
          if !result.Deadline? { break; }
          continue;
        }
        RemainsOk(w, serve, paused, ticks, n - 1, key, throttled, fails, endedOnce, log, statuses, whole);
        statuses := statuses + [reply.status];
        throttled, fails := 0, 0;
        var done;
        ghost var z;
        done, endedOnce, z := Accept(reply, endedOnce, log);
        log := log + [z];
        if done {
          result := Done;
          break;
        }
      }
      RemainsQuiet(w, serve, paused, ticks, n, key, throttled, fails, endedOnce, log, statuses, whole);
      assert Course(EndingOf(result), key, log, statuses) == whole;
      Close();
    }
  }

  lemma RowsKept(w: World, d: Disk, rows: seq<Row>, p: nat)
    requires Kept(w, d, p) && p + |rows| <= |w.index| && rows == w.index[p..p + |rows|]
    requires forall q :: q in Pairs(w, rows) ==> InJournal(w, d, q)
    ensures Kept(w, d, p + |rows|)
  {
    forall i | p <= i < p + |rows| && PairOf(w, w.index[i]).Some? ensures InJournal(w, d, PairOf(w, w.index[i]).value) {
      assert rows[i - p] == w.index[i];
      assert PairOf(w, rows[i - p]).value in Pairs(w, rows);
    }
  }

  lemma StillHeld(w: World, d: Disk, d': Disk)
    requires Within(d, d')
    ensures forall n :: Kept(w, d, n) ==> Kept(w, d', n)
    ensures forall p :: InJournal(w, d, p) ==> InJournal(w, d', p)
  {
    hide Within, Kept, InJournal;
    forall n | Kept(w, d, n) ensures Kept(w, d', n) { StillKept(w, d, d', n); }
    forall p | InJournal(w, d, p) ensures InJournal(w, d', p) { StillIn(w, d, d', p); }
  }

  lemma HeldFlushed(w: World, d: Disk, seen: set<Pair>)
    requires Held(w, d, seen, [])
    ensures forall p :: p in seen ==> InJournal(w, d, p)
  {
  }

  lemma StillIn(w: World, d: Disk, d': Disk, p: Pair)
    requires InJournal(w, d, p) && Within(d, d')
    ensures InJournal(w, d', p)
  {
    var j, row :| (j in d.finals || j in d.parts) && row in j && PairOf(w, row) == Some(p);
    assert HasRow(d', row);
  }

  lemma Promoted(d: Disk, d': Disk)
    requires d.parts != [] && d' == d.(finals := d.finals + [d.parts[0]], parts := d.parts[1..])
    ensures Within(d, d')
  {
    forall j, row | (j in d.finals || j in d.parts) && row in j ensures HasRow(d', row) {
      assert d.parts == [d.parts[0]] + d.parts[1..];
      assert j in d'.finals || j in d'.parts;
    }
  }

  lemma Flushed(d: Disk, rows: seq<Row>, d': Disk)
    requires |d.parts| == 1 && d' == d.(parts := [d.parts[0] + rows])
    ensures Within(d, d')
  {
    forall j, row | (j in d.finals || j in d.parts) && row in j ensures HasRow(d', row) {
      if j in d.parts { assert d'.parts[0] in d'.parts && row in d'.parts[0]; }
    }
  }
}
