/** Lines out of a stream of chunks, and what one answer's lines leave in the journals. */
module LineStream {
  import opened Strings
  import opened Splitting

  // ------------------------------------------------------------------ lines

  function Concat<T>(chunks: seq<seq<T>>): seq<T> {
    if chunks == [] then [] else Concat(chunks[..|chunks| - 1]) + chunks[|chunks| - 1]
  }

  /** The newline-terminated lines of a text, in order. */
  function Lines<T(==)>(text: seq<T>, nl: T): seq<seq<T>> {
    var ps := Split(text, nl);
    ps[..|ps| - 1]
  }

  /** What follows the last newline. */
  function Tail<T(==)>(text: seq<T>, nl: T): seq<T> {
    var ps := Split(text, nl);
    ps[|ps| - 1]
  }

  lemma {:induction false} SplitMore<T>(text: seq<T>, more: seq<T>, nl: T)
    ensures Split(text + more, nl) == Lines(text, nl) + Split(Tail(text, nl) + more, nl)
    decreases |text|
  {
    hide Split;
    var i := Find(text, nl);
    if i == |text| {
      OnePiece(text, nl);
      assert Lines(text, nl) == [];
    } else {
      var first, rest := text[..i], text[i + 1..];
      SplitFirst(first, nl, rest);
      assert text == first + [nl] + rest;
      SplitMore(rest, more, nl);
      SplitFirst(first, nl, rest + more);
      assert text + more == first + [nl] + (rest + more);
      var ps := Split(rest, nl);
      assert Split(text, nl) == [first] + ps;
      assert ([first] + ps)[..|ps|] == [first] + ps[..|ps| - 1];
      assert [first] + (Lines(rest, nl) + Split(Tail(rest, nl) + more, nl)) ==
             [first] + Lines(rest, nl) + Split(Tail(rest, nl) + more, nl);
    }
  }

  /** More text only adds lines: those of the unfinished line and the text. */
  lemma LinesMore<T>(text: seq<T>, more: seq<T>, nl: T)
    ensures Lines(text + more, nl) == Lines(text, nl) + Lines(Tail(text, nl) + more, nl)
    ensures Tail(text + more, nl) == Tail(Tail(text, nl) + more, nl)
  {
    SplitMore(text, more, nl);
    var a, b := Lines(text, nl), Split(Tail(text, nl) + more, nl);
    assert (a + b)[..|a + b| - 1] == a + b[..|b| - 1];
  }

  lemma NoText<T>(nl: T)
    ensures Lines([], nl) == [] && Tail([], nl) == []
  {
    assert Split([], nl) == [[]];
  }

  /** The journal reader's splitter: the lines depend on the text alone, not on how it is cut. */
  method ReadLines(chunks: seq<string>) returns (lines: seq<string>)
    ensures lines == Lines(Concat(chunks), '\n')
  {
    NoText('\n');
    var buf := "";
    lines := [];
    for i := 0 to |chunks|
      invariant lines == Lines(Concat(chunks[..i]), '\n') && buf == Tail(Concat(chunks[..i]), '\n')
    {
      LinesMore(Concat(chunks[..i]), chunks[i], '\n');
      assert chunks[..i + 1][..i] == chunks[..i];
      buf := buf + chunks[i];
      var ps := Split(buf, '\n');
      buf := ps[|ps| - 1];
      lines := lines + ps[..|ps| - 1];
    }
    assert chunks[..|chunks|] == chunks;
  }

  /** The lines and the tail are the text again. */
  lemma {:induction false} LinesJoin(text: string)
    ensures Concat(Ended(Lines(text, '\n'))) + Tail(text, '\n') == text
    ensures '\n' !in Tail(text, '\n') && forall l :: l in Lines(text, '\n') ==> '\n' !in l
  {
    var ps := Split(text, '\n');
    JoinSplit(text, '\n');
    JoinEnded(ps);
  }

  function Ended(lines: seq<string>): seq<string> {
    seq(|lines|, i requires 0 <= i < |lines| => lines[i] + "\n")
  }

  lemma {:induction false} ConcatFront(first: string, rest: seq<string>)
    ensures Concat([first] + rest) == first + Concat(rest)
  {
    var all := [first] + rest;
    if rest == [] {
      assert all[..0] == [] && Concat(all) == Concat([]) + first;
    } else {
      ConcatFront(first, rest[..|rest| - 1]);
      assert all[..|all| - 1] == [first] + rest[..|rest| - 1];
    }
  }

  lemma {:induction false} JoinEnded(ps: seq<string>)
    requires ps != []
    ensures Join(ps, '\n') == Concat(Ended(ps[..|ps| - 1])) + ps[|ps| - 1]
  {
    if |ps| == 1 {
      assert Ended(ps[..0]) == [];
    } else {
      JoinEnded(ps[1..]);
      var front := ps[..|ps| - 1];
      assert Ended(front) == [ps[0] + "\n"] + Ended(ps[1..][..|ps| - 2]);
      ConcatFront(ps[0] + "\n", Ended(ps[1..][..|ps| - 2]));
    }
  }

  // ------------------------------------------------------------------ the sink of one answer

  const SPLIT_YEAR := 2002

  datatype Pair = Pair(host: string, year: string)

  datatype Capture = Capture(ts: string, original: string, status: string)

  datatype Row = Row(urlkey: string, cap: Capture)

  datatype Edge = Edge(first: string, last: string)

  datatype Kept = Kept(keep: map<Pair, Capture>, edge: Option<Edge>, rows: nat)

  predicate Digits(s: string) {
    s != "" && forall i :: 0 <= i < |s| ==> '0' <= s[i] <= '9'
  }

  function RowOf(line: string): Option<Row> {
    var parts := Split(line, ' ');
    if |parts| < 4 then None else Some(Row(parts[0], Capture(parts[1], parts[2], parts[3])))
  }

  function PairOf(c: Capture, hostOf: string -> Option<string>): Option<Pair> {
    var host, year := hostOf(c.original), if |c.ts| < 4 then c.ts else c.ts[..4];
    if host.Some? && host.value != "" && Digits(year) then Some(Pair(host.value, year)) else None
  }

  /** The line is four fields with single spaces between them, and perhaps more behind. */
  ghost predicate FieldsOf(line: string, urlkey: string, ts: string, original: string, status: string) {
    exists more: seq<string> :: line == Join([urlkey, ts, original, status] + more, ' ') &&
      forall f :: f in [urlkey, ts, original, status] + more ==> ' ' !in f
  }

  lemma FieldsSplit(line: string, urlkey: string, ts: string, original: string, status: string)
    requires FieldsOf(line, urlkey, ts, original, status)
    ensures var ps := Split(line, ' ');
      |ps| >= 4 && ps[0] == urlkey && ps[1] == ts && ps[2] == original && ps[3] == status
  {
    var more: seq<string> :| line == Join([urlkey, ts, original, status] + more, ' ') &&
      forall f :: f in [urlkey, ts, original, status] + more ==> ' ' !in f;
    hide Split, Join;
    SplitJoin([urlkey, ts, original, status] + more, ' ');
  }

  lemma SplitFields(line: string)
    requires |Split(line, ' ')| >= 4
    ensures var ps := Split(line, ' '); FieldsOf(line, ps[0], ps[1], ps[2], ps[3])
  {
    hide Split, Join;
    var ps := Split(line, ' ');
    JoinSplit(line, ' ');
    assert ps == [ps[0], ps[1], ps[2], ps[3]] + ps[4..];
  }

  /** A line is a row exactly when it has four fields behind each other: the key, the stamp, the url and the status. */
  lemma RowExactly(line: string, urlkey: string, ts: string, original: string, status: string)
    ensures RowOf(line) == Some(Row(urlkey, Capture(ts, original, status))) <==>
            FieldsOf(line, urlkey, ts, original, status)
  {
    hide Split, FieldsOf;
    if FieldsOf(line, urlkey, ts, original, status) { FieldsSplit(line, urlkey, ts, original, status); }
    if |Split(line, ' ')| >= 4 { SplitFields(line); }
  }

  /** A capture is of a pair exactly when its url has a host and its stamp starts with the year, or is all of it. */
  lemma PairExactly(c: Capture, hostOf: string -> Option<string>, host: string, year: string)
    ensures PairOf(c, hostOf) == Some(Pair(host, year)) <==>
      && hostOf(c.original) == Some(host) && host != ""
      && year <= c.ts && |year| <= 4 && (|year| < 4 ==> year == c.ts)
      && year != "" && forall d :: d in year ==> '0' <= d <= '9'
  {
    if year <= c.ts && |year| == 4 { assert year == c.ts[..4]; }
    assert forall i :: 0 <= i < |year| ==> year[i] in year;
  }

  /** The rows of an answer's lines, in order. */
  function RowsOf(lines: seq<string>): seq<Row> {
    if lines == [] then []
    else
      var row := RowOf(lines[|lines| - 1]);
      RowsOf(lines[..|lines| - 1]) + if row.Some? then [row.value] else []
  }

  /** Row i has the earliest stamp of its pair, and is the first that has it. */
  ghost predicate Earliest(rows: seq<Row>, hostOf: string -> Option<string>, p: Pair, i: nat) {
    && i < |rows| && PairOf(rows[i].cap, hostOf) == Some(p)
    && forall j :: 0 <= j < |rows| && PairOf(rows[j].cap, hostOf) == Some(p) ==>
        !Less(rows[j].cap.ts, rows[i].cap.ts) && (j < i ==> Less(rows[i].cap.ts, rows[j].cap.ts))
  }

  ghost predicate HasEarliest(rows: seq<Row>, hostOf: string -> Option<string>, p: Pair, c: Capture) {
    exists i: nat :: Earliest(rows, hostOf, p, i) && rows[i].cap == c
  }

  ghost predicate KeepsEarliest(keep: map<Pair, Capture>, rows: seq<Row>, hostOf: string -> Option<string>) {
    && (forall p :: p in keep ==> HasEarliest(rows, hostOf, p, keep[p]))
    && (forall i :: 0 <= i < |rows| && PairOf(rows[i].cap, hostOf).Some? ==> PairOf(rows[i].cap, hostOf).value in keep)
  }

  /** One capture per (host, year), the earliest; how many rows; and the keys of the first and the last. */
  ghost predicate Holds(k: Kept, rows: seq<Row>, hostOf: string -> Option<string>) {
    && KeepsEarliest(k.keep, rows, hostOf)
    && k.rows == |rows|
    && k.edge == if rows == [] then None else Some(Edge(rows[0].urlkey, rows[|rows| - 1].urlkey))
  }

  function Put(keep: map<Pair, Capture>, c: Capture, hostOf: string -> Option<string>): map<Pair, Capture> {
    var p := PairOf(c, hostOf);
    if p.Some? && (p.value !in keep || Less(c.ts, keep[p.value].ts)) then keep[p.value := c] else keep
  }

  lemma PutEarliest(keep: map<Pair, Capture>, rows: seq<Row>, row: Row, hostOf: string -> Option<string>)
    requires KeepsEarliest(keep, rows, hostOf)
    ensures KeepsEarliest(Put(keep, row.cap, hostOf), rows + [row], hostOf)
  {
    var next, all := Put(keep, row.cap, hostOf), rows + [row];
    forall p | p in next ensures HasEarliest(all, hostOf, p, next[p]) {
      if p !in keep {
        OnlyOne(keep, rows, row, hostOf, p);
      } else {
        var i: nat :| Earliest(rows, hostOf, p, i) && rows[i].cap == keep[p];
        OneMore(rows, row, hostOf, p, i);
      }
    }
  }

  lemma OnlyOne(keep: map<Pair, Capture>, rows: seq<Row>, row: Row, hostOf: string -> Option<string>, p: Pair)
    requires KeepsEarliest(keep, rows, hostOf) && p !in keep && PairOf(row.cap, hostOf) == Some(p)
    ensures HasEarliest(rows + [row], hostOf, p, row.cap)
  {
    hide PairOf, HasEarliest;
    var all := rows + [row];
    LessTotal(row.cap.ts, row.cap.ts);
    forall j | 0 <= j < |rows| ensures PairOf(all[j].cap, hostOf) != Some(p) { assert all[j] == rows[j]; }
    assert Earliest(all, hostOf, p, |rows|);
    Witness(all, hostOf, p, |rows|);
  }

  lemma Witness(rows: seq<Row>, hostOf: string -> Option<string>, p: Pair, i: nat)
    requires Earliest(rows, hostOf, p, i)
    ensures HasEarliest(rows, hostOf, p, rows[i].cap)
  {
  }

  lemma OneMore(rows: seq<Row>, row: Row, hostOf: string -> Option<string>, p: Pair, i: nat)
    requires Earliest(rows, hostOf, p, i)
    ensures var c := row.cap;
      HasEarliest(rows + [row], hostOf, p,
                  if PairOf(c, hostOf) == Some(p) && Less(c.ts, rows[i].cap.ts) then c else rows[i].cap)
  {
    hide PairOf, Less, HasEarliest;
    var all := rows + [row];
    if PairOf(row.cap, hostOf) == Some(p) && Less(row.cap.ts, rows[i].cap.ts) {
      Replaced(rows, row, hostOf, p, i);
      Witness(all, hostOf, p, |rows|);
    } else {
      assert Earliest(all, hostOf, p, i);
      Witness(all, hostOf, p, i);
    }
  }

  lemma Replaced(rows: seq<Row>, row: Row, hostOf: string -> Option<string>, p: Pair, i: nat)
    requires Earliest(rows, hostOf, p, i) && PairOf(row.cap, hostOf) == Some(p) && Less(row.cap.ts, rows[i].cap.ts)
    ensures Earliest(rows + [row], hostOf, p, |rows|)
  {
    hide PairOf, Less;
    var all, t := rows + [row], row.cap.ts;
    LessTotal(t, t);
    forall j | 0 <= j < |rows| && PairOf(rows[j].cap, hostOf) == Some(p)
      ensures !Less(all[j].cap.ts, t) && Less(t, all[j].cap.ts)
    {
      LessBelow(t, rows[i].cap.ts, rows[j].cap.ts);
      LessTotal(t, rows[j].cap.ts);
    }
  }

  lemma LessBelow(t: string, u: string, v: string)
    requires Less(t, u) && !Less(v, u)
    ensures Less(t, v)
  {
    LessTotal(u, v);
    LessTotal(t, u);
    if u != v { LessTransitive(t, u, v); }
  }

  /** A row taken in extends what is held. */
  lemma HoldsMore(k: Kept, rows: seq<Row>, row: Row, hostOf: string -> Option<string>)
    requires Holds(k, rows, hostOf)
    ensures Holds(Kept(Put(k.keep, row.cap, hostOf),
                       Some(Edge(if k.edge.None? then row.urlkey else k.edge.value.first, row.urlkey)), k.rows + 1),
                  rows + [row], hostOf)
  {
    PutEarliest(k.keep, rows, row, hostOf);
    hide KeepsEarliest, Put;
  }

  lemma RowsMore(lines: seq<string>, line: string)
    ensures RowsOf(lines + [line]) == RowsOf(lines) + if RowOf(line).Some? then [RowOf(line).value] else []
  {
    assert (lines + [line])[..|lines|] == lines;
  }

  class Sink {
    const hostOf: string -> Option<string>
    var keep: map<Pair, Capture>
    var edge: Option<Edge>
    var rows: nat
    ghost var got: seq<string>

    ghost predicate Valid()
      reads this
    {
      Holds(Kept(keep, edge, rows), RowsOf(got), hostOf)
    }

    constructor (hostOf: string -> Option<string>)
      ensures Valid() && got == [] && this.hostOf == hostOf
    {
      this.hostOf, keep, edge, rows, got := hostOf, map[], None, 0, [];
    }

    /** One line of the answer. */
    method Line(line: string)
      requires Valid()
      modifies this
      ensures Valid() && got == old(got) + [line]
    {
      hide Holds, RowsOf, Split, Less;
      ghost var was, held := RowsOf(got), Kept(keep, edge, rows);
      RowsMore(got, line);
      got := got + [line];
      var parts := Split(line, ' ');
      if |parts| < 4 {
        assert was + [] == was;
        return;
      }
      var c := Capture(parts[1], parts[2], parts[3]);
      HoldsMore(held, was, Row(parts[0], c), hostOf);
      rows := rows + 1;
      edge := Some(Edge(if edge.None? then parts[0] else edge.value.first, parts[0]));
      var host, year := hostOf(c.original), if |c.ts| < 4 then c.ts else c.ts[..4];
      if host.Some? && host.value != "" && Digits(year)
         && (Pair(host.value, year) !in keep || Less(c.ts, keep[Pair(host.value, year)].ts)) {
        keep := keep[Pair(host.value, year) := c];
      }
      assert keep == Put(held.keep, c, hostOf);
    }

    /** The stream of one answer: every terminated line of the chunks that came, and no other. */
    method Stream(chunks: seq<string>)
      requires Valid() && got == []
      modifies this
      ensures Valid() && got == Lines(Concat(chunks), '\n')
    {
      hide Holds, RowsOf, Find;
      NoText('\n');
      var buf := "";
      for i := 0 to |chunks|
        invariant Valid() && got == Lines(Concat(chunks[..i]), '\n') && buf == Tail(Concat(chunks[..i]), '\n')
      {
        LinesMore(Concat(chunks[..i]), chunks[i], '\n');
        assert chunks[..i + 1][..i] == chunks[..i];
        var ps := Split(buf + chunks[i], '\n');
        ghost var before := got;
        for j := 0 to |ps| - 1
          invariant Valid() && got == before + ps[..j]
        {
          assert ps[..j + 1] == ps[..j] + [ps[j]];
          Line(ps[j]);
        }
        buf := ps[|ps| - 1];
      }
      assert chunks[..|chunks|] == chunks;
    }

    /** The two journals: captures up to 2001, and those from 2002 to the last year asked. */
    method Journals(last: nat) returns (core: map<Pair, Capture>, ext: map<Pair, Capture>)
      requires Valid()
      ensures Journaled(core, ext, RowsOf(got), hostOf, last)
    {
      hide KeepsEarliest, Journaled, RowsOf, Number;
      core := map p | p in keep && Digits(p.year) && Number(p.year) < SPLIT_YEAR :: keep[p];
      ext := map p | p in keep && Digits(p.year) && SPLIT_YEAR <= Number(p.year) <= last :: keep[p];
      Filed(core, ext, keep, RowsOf(got), hostOf, last);
    }
  }

  function Number(s: string): nat
    requires Digits(s)
  {
    var d := (s[|s| - 1] - '0') as nat;
    if |s| == 1 then d else 10 * Number(s[..|s| - 1]) + d
  }

  /** The number is read from its last digit: ten times the rest, and the digit. */
  lemma YearNumber(s: string)
    requires |s| == 4 && Digits(s)
    ensures Number(s) == 1000 * (s[0] - '0') as int + 100 * (s[1] - '0') as int + 10 * (s[2] - '0') as int
                         + (s[3] - '0') as int
  {
    var a, b, c := s[..1], s[..2], s[..3];
    assert s[..|s| - 1] == c && c[..|c| - 1] == b && b[..|b| - 1] == a;
    assert Number(a) == (s[0] - '0') as int;
    assert Number(b) == 10 * Number(a) + (s[1] - '0') as int;
    assert Number(c) == 10 * Number(b) + (s[2] - '0') as int;
  }

  /** Every pair of the answer up to the last year is filed once, with its earliest capture. */
  ghost predicate Journaled(core: map<Pair, Capture>, ext: map<Pair, Capture>, rows: seq<Row>,
                            hostOf: string -> Option<string>, last: nat) {
    && core.Keys !! ext.Keys
    && (forall p :: p in core ==> FiledRow(rows, hostOf, p, core[p]) && Number(p.year) < 2002)
    && (forall p :: p in ext ==> FiledRow(rows, hostOf, p, ext[p]) && 2002 <= Number(p.year) <= last)
    && (forall i :: 0 <= i < |rows| ==> Placed(core, ext, PairOf(rows[i].cap, hostOf), last))
  }

  ghost predicate FiledRow(rows: seq<Row>, hostOf: string -> Option<string>, p: Pair, c: Capture) {
    Digits(p.year) && HasEarliest(rows, hostOf, p, c)
  }

  ghost predicate Placed(core: map<Pair, Capture>, ext: map<Pair, Capture>, p: Option<Pair>, last: nat) {
    p.Some? ==>
      && Digits(p.value.year)
      && (Number(p.value.year) < 2002 ==> p.value in core)
      && (2002 <= Number(p.value.year) <= last ==> p.value in ext)
  }

  lemma PairDigits(rows: seq<Row>, hostOf: string -> Option<string>, p: Pair, c: Capture)
    requires HasEarliest(rows, hostOf, p, c)
    ensures Digits(p.year)
  {
    var i: nat :| Earliest(rows, hostOf, p, i) && rows[i].cap == c;
  }

  lemma Filed(core: map<Pair, Capture>, ext: map<Pair, Capture>, keep: map<Pair, Capture>, rows: seq<Row>,
              hostOf: string -> Option<string>, last: nat)
    requires KeepsEarliest(keep, rows, hostOf)
    requires core == map p | p in keep && Digits(p.year) && Number(p.year) < SPLIT_YEAR :: keep[p]
    requires ext == map p | p in keep && Digits(p.year) && SPLIT_YEAR <= Number(p.year) <= last :: keep[p]
    ensures Journaled(core, ext, rows, hostOf, last)
  {
    hide HasEarliest, Number;
    forall p | p in keep ensures FiledRow(rows, hostOf, p, keep[p]) { PairDigits(rows, hostOf, p, keep[p]); }
  }
}
