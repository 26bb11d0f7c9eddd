/** The exporter: a bytewise sort of tab-joined lines, the first row of each host-year, and a merge-join. */
module Export {
  import opened Strings
  import opened Splitting

  // ------------------------------------------------------------------ one journal line

  datatype Capture = Capture(status: Option<string>, ts: string, url: string)

  /** A line: blank, not JSON, or a capture. */
  datatype JournalLine = Blank | Unparseable | Captured(cap: Capture)

  datatype Reason = BLANK | UNPARSEABLE | BAD_STATUS | ERROR_STATUS | NO_STATUS | BAD_TIMESTAMP | OUTSIDE_WINDOW
                  | INVALID_HOST | TLD_DID_NOT_EXIST | NO_REGISTRABLE

  /** The fields of a kept capture: the third is the status-less flag and the stamp. */
  datatype Row = Row(year: string, host: string, stamp: string, input: string, line: string)

  datatype Screened = Drop(reason: Reason) | Kept(year: string, host: string, ts: string, statusless: bool)

  /** The window, the host of a url, and the two tests a host must pass. */
  datatype Rules = Rules(years: set<string>, hostOf: string -> Option<string>,
                         existed: (string, string) -> bool, registrable: string -> bool)

  predicate Digits(s: string) {
    forall i :: 0 <= i < |s| ==> '0' <= s[i] <= '9'
  }

  predicate StatusLike(s: string) {
    |s| == 3 && '2' <= s[0] <= '5' && Digits(s)
  }

  function Screen(l: JournalLine, strict: bool, rules: Rules): Screened {
    match l
    case Blank => Drop(BLANK)
    case Unparseable => Drop(UNPARSEABLE)
    case Captured(c) =>
      if c.status.Some? && !StatusLike(c.status.value) then Drop(BAD_STATUS)
      else if c.status.Some? && c.status.value[0] in {'4', '5'} then Drop(ERROR_STATUS)
      else if c.status.None? && strict then Drop(NO_STATUS)
      else if |c.ts| != 14 || !Digits(c.ts) then Drop(BAD_TIMESTAMP)
      else if c.ts[..4] !in rules.years then Drop(OUTSIDE_WINDOW)
      else
        var host := rules.hostOf(c.url);
        if host.None? then Drop(INVALID_HOST)
        else if !rules.existed(host.value, c.ts[..4]) then Drop(TLD_DID_NOT_EXIST)
        else if !rules.registrable(host.value) then Drop(NO_REGISTRABLE)
        else Kept(c.ts[..4], host.value, c.ts, c.status.None?)
  }

  /** A status of three digits that the archive answers with. */
  predicate AStatus(s: string) {
    |s| == 3 && s[0] in {'2', '3', '4', '5'} && '0' <= s[1] <= '9' && '0' <= s[2] <= '9'
  }

  predicate FullStamp(s: string) {
    |s| == 14 && forall i :: 0 <= i < 14 ==> s[i] in "0123456789"
  }

  /** Why a line dates nothing: the first test that it fails, and that it passes those before. */
  predicate Fails(l: JournalLine, strict: bool, rules: Rules, why: Reason) {
    match why
    case BLANK => l.Blank?
    case UNPARSEABLE => l.Unparseable?
    case BAD_STATUS => l.Captured? && l.cap.status.Some? && !AStatus(l.cap.status.value)
    case ERROR_STATUS =>
      l.Captured? && l.cap.status.Some? && AStatus(l.cap.status.value) && l.cap.status.value[0] in {'4', '5'}
    case NO_STATUS => l.Captured? && l.cap.status.None? && strict
    case BAD_TIMESTAMP => PassesStatus(l, strict) && !FullStamp(l.cap.ts)
    case OUTSIDE_WINDOW => PassesStatus(l, strict) && FullStamp(l.cap.ts) && l.cap.ts[..4] !in rules.years
    case INVALID_HOST => InWindow(l, strict, rules) && rules.hostOf(l.cap.url).None?
    case TLD_DID_NOT_EXIST =>
      && InWindow(l, strict, rules) && rules.hostOf(l.cap.url).Some?
      && !rules.existed(rules.hostOf(l.cap.url).value, l.cap.ts[..4])
    case NO_REGISTRABLE =>
      && InWindow(l, strict, rules) && rules.hostOf(l.cap.url).Some?
      && rules.existed(rules.hostOf(l.cap.url).value, l.cap.ts[..4])
      && !rules.registrable(rules.hostOf(l.cap.url).value)
  }

  /** A capture of a 2xx or a 3xx, or of no status where none is required. */
  predicate PassesStatus(l: JournalLine, strict: bool) {
    l.Captured? &&
    match l.cap.status
    case None => !strict
    case Some(s) => AStatus(s) && (s[0] == '2' || s[0] == '3')
  }

  predicate InWindow(l: JournalLine, strict: bool, rules: Rules) {
    PassesStatus(l, strict) && FullStamp(l.cap.ts) && l.cap.ts[..4] in rules.years
  }

  /** The line is a capture that dates this host to the year of its stamp. */
  predicate DatesHost(l: JournalLine, strict: bool, rules: Rules, host: string) {
    && InWindow(l, strict, rules) && rules.hostOf(l.cap.url) == Some(host)
    && rules.existed(host, l.cap.ts[..4]) && rules.registrable(host)
  }

  lemma StampChars(s: string)
    ensures forall i :: 0 <= i < |s| ==> (s[i] in "0123456789" <==> '0' <= s[i] <= '9')
  {
    forall i | 0 <= i < |s| && '0' <= s[i] <= '9' ensures s[i] in "0123456789" {
      var d := "0123456789";
      assert d[(s[i] - '0') as int] == s[i];
    }
  }

  /** A line is kept if and only if it is a capture that dates its host, and it is dropped for a reason if and only if
      that is the first test it fails. */
  lemma ScreenExactly(l: JournalLine, strict: bool, rules: Rules)
    ensures var k := Screen(l, strict, rules);
      && (forall why :: k == Drop(why) <==> Fails(l, strict, rules, why))
      && (forall year, host, ts, statusless :: k == Kept(year, host, ts, statusless) <==>
            && DatesHost(l, strict, rules, host)
            && ts == l.cap.ts && year == ts[..4] && statusless == l.cap.status.None?)
  {
    if l.Captured? { StampChars(l.cap.ts); }
  }

  // ------------------------------------------------------------------ line order is field order

  /** No character at or below the tab. */
  predicate Clean(s: string) {
    forall i :: 0 <= i < |s| ==> '\t' < s[i]
  }

  function Fields(r: Row): seq<string> {
    [r.year, r.host, r.stamp, r.input, r.line]
  }

  function Text(r: Row): string {
    Join(Fields(r), '\t')
  }

  predicate CleanRow(r: Row) {
    Clean(r.year) && Clean(r.host) && Clean(r.stamp) && Clean(r.input) && Clean(r.line)
  }

  /** Field by field, the first difference deciding. */
  predicate TupleLess(a: seq<string>, b: seq<string>)
    requires |a| == |b|
  {
    a != [] && (Less(a[0], b[0]) || (a[0] == b[0] && TupleLess(a[1..], b[1..])))
  }

  predicate RowLess(a: Row, b: Row) {
    TupleLess(Fields(a), Fields(b))
  }

  /** What follows a field of each cannot outweigh the fields: it starts with a tab, or is nothing. */
  predicate Follows(x: string) {
    x == "" || x[0] == '\t'
  }

  lemma {:induction false} FieldFirst(a: string, b: string, x: string, y: string)
    requires Clean(a) && Clean(b) && Follows(x) && Follows(y)
    ensures Less(a + x, b + y) <==> Less(a, b) || (a == b && Less(x, y))
    decreases |a|
  {
    if a == [] || b == [] {
      assert a == [] ==> a + x == x;
      assert b == [] ==> b + y == y;
    } else {
      assert (a + x)[0] == a[0] && (a + x)[1..] == a[1..] + x;
      assert (b + y)[0] == b[0] && (b + y)[1..] == b[1..] + y;
      FieldFirst(a[1..], b[1..], x, y);
      assert a == b <==> a[0] == b[0] && a[1..] == b[1..] by {
        assert a == [a[0]] + a[1..] && b == [b[0]] + b[1..];
      }
    }
  }

  lemma LessTab(x: string, y: string)
    ensures Less("\t" + x, "\t" + y) <==> Less(x, y)
  {
    assert ("\t" + x)[1..] == x && ("\t" + y)[1..] == y;
  }

  /** Bytewise order of the joined lines is the order of their fields. */
  lemma {:induction false} JoinOrder(a: seq<string>, b: seq<string>)
    requires |a| == |b| && (forall f :: f in a ==> Clean(f)) && (forall f :: f in b ==> Clean(f))
    ensures Less(Join(a, '\t'), Join(b, '\t')) <==> TupleLess(a, b)
    decreases |a|
  {
    if |a| == 1 {
      LessTotal(a[0], b[0]);
    } else if |a| > 1 {
      var x, y := "\t" + Join(a[1..], '\t'), "\t" + Join(b[1..], '\t');
      assert Join(a, '\t') == a[0] + x && Join(b, '\t') == b[0] + y;
      JoinOrder(a[1..], b[1..]);
      FieldFirst(a[0], b[0], x, y);
      LessTab(Join(a[1..], '\t'), Join(b[1..], '\t'));
    }
  }

  lemma TextOrder(a: Row, b: Row)
    requires CleanRow(a) && CleanRow(b)
    ensures Less(Text(a), Text(b)) <==> RowLess(a, b)
  {
    JoinOrder(Fields(a), Fields(b));
  }

  ghost predicate SortedText(rows: seq<Row>) {
    forall i, j :: 0 <= i < j < |rows| ==> !Less(Text(rows[j]), Text(rows[i]))
  }

  ghost predicate SortedRows(rows: seq<Row>) {
    forall i, j :: 0 <= i < j < |rows| ==> !RowLess(rows[j], rows[i])
  }

  /** Sorting the lines bytewise sorts the rows, and a line read back is its row's fields. */
  lemma SortIsRowSort(rows: seq<Row>)
    requires forall r :: r in rows ==> CleanRow(r)
    ensures SortedText(rows) <==> SortedRows(rows)
    ensures forall r :: r in rows ==> Split(Text(r), '\t') == Fields(r)
  {
    forall i, j | 0 <= i < j < |rows| ensures Less(Text(rows[j]), Text(rows[i])) <==> RowLess(rows[j], rows[i]) {
      assert rows[i] in rows && rows[j] in rows;
      TextOrder(rows[j], rows[i]);
    }
    forall r | r in rows ensures Split(Text(r), '\t') == Fields(r) { SplitJoin(Fields(r), '\t'); }
  }

  // ------------------------------------------------------------------ one journal

  function RowFor(k: Screened, input: string, line: string): Row
    requires k.Kept?
  {
    Row(k.year, k.host, (if k.statusless then "1" else "0") + k.ts, input, line)
  }

  /** The kept rows of the first n lines, each with its own line's name. */
  function KeptRows(lines: seq<JournalLine>, strict: bool, rules: Rules, input: string,
                    number: nat -> string): seq<Row> {
    if lines == [] then []
    else
      var n := |lines| - 1;
      var k := Screen(lines[n], strict, rules);
      KeptRows(lines[..n], strict, rules, input, number) + if k.Kept? then [RowFor(k, input, number(n + 1))] else []
  }

  predicate NoStatus(lines: seq<JournalLine>, strict: bool, rules: Rules, i: nat)
    requires i < |lines|
  {
    Screen(lines[i], strict, rules) == Drop(NO_STATUS)
  }

  ghost predicate Refused(lines: seq<JournalLine>, errorLane: bool, strict: bool, rules: Rules) {
    errorLane || exists i: nat :: i < |lines| && NoStatus(lines, strict, rules, i)
  }

  /** A journal is refused exactly when its lane is of errors, or its family must carry a status and some capture has
      none. */
  lemma RefusedExactly(lines: seq<JournalLine>, errorLane: bool, strict: bool, rules: Rules)
    ensures Refused(lines, errorLane, strict, rules) <==>
      errorLane || (strict && exists i: nat :: i < |lines| && lines[i].Captured? && lines[i].cap.status.None?)
  {
    forall i: nat | i < |lines|
      ensures NoStatus(lines, strict, rules, i) <==> strict && lines[i].Captured? && lines[i].cap.status.None?
    {
      ScreenExactly(lines[i], strict, rules);
    }
  }

  /** How many lines were dropped for this reason. */
  function Dropped(lines: seq<JournalLine>, strict: bool, rules: Rules, why: Reason): nat {
    if lines == [] then 0
    else
      var n := |lines| - 1;
      Dropped(lines[..n], strict, rules, why) + if Screen(lines[n], strict, rules) == Drop(why) then 1 else 0
  }

  function At(drops: map<Reason, nat>, why: Reason): nat {
    if why in drops then drops[why] else 0
  }

  /** Every line is kept once or dropped for one reason. */
  lemma {:induction false} LinesCounted(lines: seq<JournalLine>, strict: bool, rules: Rules, input: string,
                                        number: nat -> string)
    ensures var d := (why: Reason) => Dropped(lines, strict, rules, why);
      |lines| == |KeptRows(lines, strict, rules, input, number)| + d(BLANK) + d(UNPARSEABLE) + d(BAD_STATUS)
        + d(ERROR_STATUS) + d(NO_STATUS) + d(BAD_TIMESTAMP) + d(OUTSIDE_WINDOW) + d(INVALID_HOST)
        + d(TLD_DID_NOT_EXIST) + d(NO_REGISTRABLE)
  {
    if lines != [] {
      LinesCounted(lines[..|lines| - 1], strict, rules, input, number);
      hide Screen;
    }
  }

  /** A journal of a family that must carry a status is refused whole on the first line that has none; of any
      other the kept rows and, by reason, the dropped lines are counted. */
  method ScreenedRows(lines: seq<JournalLine>, errorLane: bool, strict: bool, rules: Rules, input: string,
                      number: nat -> string)
    returns (rows: seq<Row>, kept: nat, drops: map<Reason, nat>, refused: bool)
    ensures refused <==> Refused(lines, errorLane, strict, rules)
    ensures rows == if refused then [] else KeptRows(lines, strict, rules, input, number)
    ensures kept == |rows|
    ensures refused ==> drops == map[]
    ensures !refused ==> forall why :: At(drops, why) == Dropped(lines, strict, rules, why)
  {
    rows, kept, drops, refused := [], 0, map[], errorLane;
    if refused { return; }
    for i := 0 to |lines|
      invariant rows == KeptRows(lines[..i], strict, rules, input, number) && kept == |rows|
      invariant forall why :: At(drops, why) == Dropped(lines[..i], strict, rules, why)
      invariant forall j: nat :: j < i ==> !NoStatus(lines, strict, rules, j)
    {
      assert lines[..i + 1][..i] == lines[..i];
      var k := Screen(lines[i], strict, rules);
      if k == Drop(NO_STATUS) {
        assert NoStatus(lines, strict, rules, i);
        return [], 0, map[], true;
      }
      match k {
        case Kept(_, _, _, _) => rows, kept := rows + [RowFor(k, input, number(i + 1))], kept + 1;
        case Drop(why) => drops := drops[why := At(drops, why) + 1];
      }
    }
    assert lines[..|lines|] == lines;
  }

  /** The rules only ever name hosts, and years, of characters above the tab. */
  ghost predicate CleanRules(rules: Rules) {
    && (forall y :: y in rules.years ==> Clean(y))
    && forall url :: rules.hostOf(url).Some? ==> Clean(rules.hostOf(url).value)
  }

  /** Every kept row is clean, so its line sorts as its fields do. */
  lemma {:induction false} KeptRowsClean(lines: seq<JournalLine>, strict: bool, rules: Rules, input: string,
                                         number: nat -> string)
    requires CleanRules(rules) && Clean(input) && forall n :: Clean(number(n))
    ensures forall r :: r in KeptRows(lines, strict, rules, input, number) ==> CleanRow(r)
  {
    if lines != [] {
      KeptRowsClean(lines[..|lines| - 1], strict, rules, input, number);
    }
  }

  // ------------------------------------------------------------------ the first row of each host-year

  predicate SamePair(a: Row, b: Row) {
    a.year == b.year && a.host == b.host
  }

  /** r is a row, and no row of its host-year comes before it. */
  ghost predicate First(rows: seq<Row>, r: Row) {
    r in rows && forall q :: q in rows && SamePair(q, r) ==> !RowLess(q, r)
  }

  predicate HasStatus(r: Row) {
    r.stamp != "" && r.stamp[0] == '0'
  }

  predicate Stamped(r: Row) {
    r.stamp != "" && r.stamp[0] in {'0', '1'}
  }

  lemma StampFirst(rows: seq<Row>, r: Row, q: Row)
    requires First(rows, r) && q in rows && SamePair(q, r)
    ensures !Less(q.stamp, r.stamp)
  {
    LessTotal(q.year, r.year);
    LessTotal(q.host, r.host);
    assert Fields(q)[1..][1..][0] == q.stamp && Fields(r)[1..][1..][0] == r.stamp;
    assert TupleLess(Fields(q), Fields(r)) <==> TupleLess(Fields(q)[1..], Fields(r)[1..]);
    assert TupleLess(Fields(q)[1..], Fields(r)[1..]) <==> TupleLess(Fields(q)[1..][1..], Fields(r)[1..][1..]);
  }

  /** The first row is the earliest capture with a status, else the earliest without. */
  lemma FirstIsEarliest(rows: seq<Row>, r: Row, q: Row)
    requires First(rows, r) && q in rows && SamePair(q, r) && Stamped(q) && Stamped(r)
    ensures HasStatus(q) ==> HasStatus(r)
    ensures HasStatus(q) == HasStatus(r) ==> !Less(q.stamp[1..], r.stamp[1..])
  {
    StampFirst(rows, r, q);
  }

  lemma PairOrder(a: Row, b: Row)
    requires !RowLess(b, a)
    ensures Less(a.year, b.year) || (a.year == b.year && !Less(b.host, a.host))
  {
    LessTotal(a.year, b.year);
    assert Fields(a)[1..][0] == a.host && Fields(b)[1..][0] == b.host;
    assert a.year == b.year ==>
      (TupleLess(Fields(b), Fields(a)) <==> TupleLess(Fields(b)[1..], Fields(a)[1..]) || Less(b.year, a.year));
  }

  ghost predicate Ascending(names: seq<string>) {
    forall i, j :: 0 <= i < j < |names| ==> Less(names[i], names[j])
  }

  /** Rows of a sorted list with one host-year stand together. */
  lemma PairsTogether(rows: seq<Row>, j: nat, k: nat)
    requires SortedRows(rows) && j < k < |rows| && SamePair(rows[j], rows[k])
    ensures SamePair(rows[k - 1], rows[k])
  {
    if j < k - 1 {
      PairOrder(rows[j], rows[k - 1]);
      PairOrder(rows[k - 1], rows[k]);
      LessTotal(rows[k - 1].year, rows[k].year);
      LessTotal(rows[k - 1].host, rows[k].host);
    }
  }

  /** One year's files: the hosts in order, each beside its first row. */
  ghost predicate YearFiles(rows: seq<Row>, year: string, names: seq<string>, ev: seq<Row>) {
    && |names| == |ev| && Ascending(names)
    && forall i :: 0 <= i < |ev| ==> names[i] == ev[i].host && ev[i].year == year && First(rows, ev[i])
  }

  ghost predicate Deduped(rows: seq<Row>, names: map<string, seq<string>>, ev: map<string, seq<Row>>) {
    && names.Keys == ev.Keys
    && (forall y :: y in names ==> YearFiles(rows, y, names[y], ev[y]))
    && (forall r :: r in rows ==> r.year in names && r.host in names[r.year])
  }

  lemma StillFirst(rows: seq<Row>, k: nat, r: Row)
    requires SortedRows(rows) && k < |rows| && First(rows[..k], r)
    ensures First(rows[..k + 1], r)
  {
    assert rows[..k + 1] == rows[..k] + [rows[k]];
    var j :| 0 <= j < k && rows[j] == r;
  }

  lemma SameYear(rows: seq<Row>, k: nat, year: string, names: seq<string>, ev: seq<Row>)
    requires SortedRows(rows) && k < |rows| && YearFiles(rows[..k], year, names, ev)
    ensures YearFiles(rows[..k + 1], year, names, ev)
  {
    forall i | 0 <= i < |ev| ensures First(rows[..k + 1], ev[i]) { StillFirst(rows, k, ev[i]); }
  }

  /** A row of a new host-year goes to the end of its year's files. */
  lemma NewPair(rows: seq<Row>, k: nat, names: seq<string>, ev: seq<Row>)
    requires SortedRows(rows) && k < |rows| && YearFiles(rows[..k], rows[k].year, names, ev)
    requires k > 0 ==> !SamePair(rows[k - 1], rows[k])
    ensures YearFiles(rows[..k + 1], rows[k].year, names + [rows[k].host], ev + [rows[k]])
  {
    var r := rows[k];
    assert rows[..k + 1] == rows[..k] + [r];
    SameYear(rows, k, r.year, names, ev);
    forall j | 0 <= j < k ensures !SamePair(rows[j], r) {
      if SamePair(rows[j], r) { PairsTogether(rows, j, k); }
    }
    forall i | 0 <= i < |names| ensures Less(names[i], r.host) {
      assert First(rows[..k], ev[i]);
      var j :| 0 <= j < k && rows[..k][j] == ev[i];
      PairOrder(rows[j], r);
      LessTotal(names[i], r.host);
    }
    RowLessIrreflexive(r);
    assert First(rows[..k + 1], r);
  }

  lemma NoFiles(rows: seq<Row>, k: nat, year: string)
    requires k <= |rows|
    ensures YearFiles(rows[..k], year, [], [])
  {
  }

  lemma {:induction false} TupleLessIrreflexive(a: seq<string>)
    ensures !TupleLess(a, a)
  {
    if a != [] {
      LessTotal(a[0], a[0]);
      TupleLessIrreflexive(a[1..]);
    }
  }

  lemma RowLessIrreflexive(r: Row)
    ensures !RowLess(r, r)
  {
    TupleLessIrreflexive(Fields(r));
  }

  method Dedupe(rows: seq<Row>) returns (names: map<string, seq<string>>, ev: map<string, seq<Row>>, duplicates: nat,
                                         ghost written: nat)
    requires SortedRows(rows)
    ensures Deduped(rows, names, ev)
    ensures duplicates + written == |rows|
  {
    hide YearFiles, SortedRows;
    names, ev, duplicates, written := map[], map[], 0, 0;
    var last: Option<(string, string)> := None;
    for i := 0 to |rows|
      invariant Deduped(rows[..i], names, ev) && duplicates + written == i
      invariant last == if i == 0 then None else Some((rows[i - 1].year, rows[i - 1].host))
    {
      var r := rows[i];
      assert rows[..i + 1] == rows[..i] + [r];
      forall y | y in names ensures YearFiles(rows[..i + 1], y, names[y], ev[y]) {
        SameYear(rows, i, y, names[y], ev[y]);
      }
      if Some((r.year, r.host)) == last {
        assert rows[i - 1] in rows[..i];
        duplicates := duplicates + 1;
        continue;
      }
      last := Some((r.year, r.host));
      var mine, rest := if r.year in names then names[r.year] else [], if r.year in ev then ev[r.year] else [];
      if r.year !in names { NoFiles(rows, i, r.year); }
      NewPair(rows, i, mine, rest);
      names, ev := names[r.year := mine + [r.host]], ev[r.year := rest + [r]];
      written := written + 1;
    }
    assert rows[..|rows|] == rows;
  }

  // ------------------------------------------------------------------ one year

  /** `comm`: the hosts of mine that are not his, or that are. */
  function Minus(mine: seq<string>, his: set<string>, held: bool): seq<string> {
    if mine == [] then []
    else Minus(mine[..|mine| - 1], his, held) + if (mine[|mine| - 1] in his) == held then [mine[|mine| - 1]] else []
  }

  lemma {:induction false} MinusIs(mine: seq<string>, his: set<string>, held: bool)
    requires Ascending(mine)
    ensures forall h :: h in Minus(mine, his, held) <==> h in mine && (h in his) == held
    ensures Ascending(Minus(mine, his, held))
  {
    if mine != [] {
      var front, last := mine[..|mine| - 1], mine[|mine| - 1];
      assert mine == front + [last];
      MinusIs(front, his, held);
      var some := Minus(front, his, held);
      forall i | 0 <= i < |some| ensures Less(some[i], last) {
        assert some[i] in some && some[i] in front;
      }
    }
  }

  lemma {:induction false} MinusCounts(mine: seq<string>, his: set<string>)
    ensures |Minus(mine, his, false)| + |Minus(mine, his, true)| == |mine|
  {
    if mine != [] { MinusCounts(mine[..|mine| - 1], his); }
  }

  /** The two sorted files read side by side: each host finds its row, and the rows never run out. */
  method MergeJoin(adds: seq<string>, ev: seq<Row>, ghost names: seq<string>) returns (ledger: seq<Row>)
    requires Ascending(adds) && Ascending(names) && |names| == |ev|
    requires forall i :: 0 <= i < |ev| ==> ev[i].host == names[i]
    requires forall h :: h in adds ==> h in names
    ensures |ledger| == |adds|
    ensures forall i :: 0 <= i < |adds| ==> ledger[i].host == adds[i] && ledger[i] in ev
  {
    ledger := [];
    var j := 0;
    for k := 0 to |adds|
      invariant |ledger| == k && 0 <= j <= |ev|
      invariant forall i :: 0 <= i < k ==> ledger[i].host == adds[i] && ledger[i] in ev
      invariant forall i :: k <= i < |adds| ==> adds[i] in names[j..]
    {
      var host := adds[k];
      assert host in names[j..];
      ghost var at: nat :| j <= at < |names| && names[at] == host;
      var row := ev[j];
      while j < |ev|
        invariant 0 <= j <= at
        decreases |ev| - j
      {
        row := ev[j];
        j := j + 1;
        if row.host == host { break; }
      }
      assert row.host == host && j == at + 1 by { AscendingDistinct(names, j - 1, at); }
      forall i | k < i < |adds| ensures adds[i] in names[j..] { Later(adds, names, k, i, at); }
      ledger := ledger + [row];
    }
  }

  lemma AscendingDistinct(names: seq<string>, i: nat, j: nat)
    requires Ascending(names) && i < |names| && j < |names| && names[i] == names[j]
    ensures i == j
  {
    LessTotal(names[i], names[i]);
  }

  lemma Later(adds: seq<string>, names: seq<string>, k: nat, i: nat, at: nat)
    requires Ascending(adds) && Ascending(names) && k < i < |adds| && at < |names|
    requires names[at] == adds[k] && adds[i] in names
    ensures adds[i] in names[at + 1..]
  {
    var p :| 0 <= p < |names| && names[p] == adds[i];
    LessTotal(adds[k], adds[i]);
    assert p > at ==> names[at + 1..][p - at - 1] == adds[i];
  }

  /** One year: the additions are his missing hosts, and each has one ledger row, its own first. */
  method ExportYear(rows: seq<Row>, year: string, names: seq<string>, ev: seq<Row>, his: set<string>)
    returns (adds: seq<string>, ledger: seq<Row>, already: nat)
    requires YearFiles(rows, year, names, ev)
    ensures forall h :: h in adds <==> h in names && h !in his
    ensures Ascending(adds) && |adds| + already == |names|
    ensures |ledger| == |adds|
    ensures forall i :: 0 <= i < |adds| ==>
      ledger[i].host == adds[i] && ledger[i].year == year && First(rows, ledger[i])
  {
    MinusIs(names, his, false);
    MinusCounts(names, his);
    adds, already := Minus(names, his, false), |Minus(names, his, true)|;
    ledger := MergeJoin(adds, ev, names);
  }

  // ------------------------------------------------------------------ from the journals to the ledger

  datatype Journal = Journal(lines: seq<JournalLine>, errorLane: bool, strict: bool)

  /** Line n of journal i is kept as k. */
  ghost predicate KeptLine(js: seq<Journal>, rules: Rules, i: nat, n: nat, k: Screened) {
    && i < |js| && !Refused(js[i].lines, js[i].errorLane, js[i].strict, rules) && n < |js[i].lines|
    && k.Kept? && Screen(js[i].lines[n], js[i].strict, rules) == k
  }

  ghost function RowsFrom(j: Journal, rules: Rules, input: string, number: nat -> string): seq<Row> {
    if Refused(j.lines, j.errorLane, j.strict, rules) then [] else KeptRows(j.lines, j.strict, rules, input, number)
  }

  /** What the screened journals write, one after the other, each under its own number. */
  ghost function AllRows(js: seq<Journal>, rules: Rules, number: nat -> string): seq<Row> {
    if js == [] then []
    else
      var last := |js| - 1;
      AllRows(js[..last], rules, number) + RowsFrom(js[last], rules, number(last), number)
  }

  lemma {:induction false} KeptRowsAre(lines: seq<JournalLine>, strict: bool, rules: Rules, input: string,
                                       number: nat -> string, r: Row)
    requires r in KeptRows(lines, strict, rules, input, number)
    ensures exists n: nat :: n < |lines| && IsRow(lines[n], strict, rules, input, number(n + 1), r)
  {
    var last := |lines| - 1;
    if r in KeptRows(lines[..last], strict, rules, input, number) {
      KeptRowsAre(lines[..last], strict, rules, input, number, r);
      var n: nat :| n < last && IsRow(lines[..last][n], strict, rules, input, number(n + 1), r);
      assert IsRow(lines[n], strict, rules, input, number(n + 1), r);
    } else {
      assert IsRow(lines[last], strict, rules, input, number(last + 1), r);
    }
  }

  predicate IsRow(l: JournalLine, strict: bool, rules: Rules, input: string, line: string, r: Row) {
    var k := Screen(l, strict, rules);
    k.Kept? && r == RowFor(k, input, line)
  }

  lemma {:induction false} KeptRowsHave(lines: seq<JournalLine>, strict: bool, rules: Rules, input: string,
                                        number: nat -> string, n: nat)
    requires n < |lines| && Screen(lines[n], strict, rules).Kept?
    ensures RowFor(Screen(lines[n], strict, rules), input, number(n + 1)) in
            KeptRows(lines, strict, rules, input, number)
  {
    var last := |lines| - 1;
    if n < last {
      KeptRowsHave(lines[..last], strict, rules, input, number, n);
    }
  }

  /** Row r is what line n of journal i is kept as. */
  ghost predicate RowOfLine(js: seq<Journal>, rules: Rules, number: nat -> string, i: nat, n: nat, r: Row) {
    i < |js| && n < |js[i].lines| &&
    var k := Screen(js[i].lines[n], js[i].strict, rules);
    KeptLine(js, rules, i, n, k) && r == RowFor(k, number(i), number(n + 1))
  }

  lemma {:induction false} RowsAre(js: seq<Journal>, rules: Rules, number: nat -> string, r: Row)
    requires r in AllRows(js, rules, number)
    ensures exists i: nat, n: nat :: RowOfLine(js, rules, number, i, n, r)
  {
    var last := |js| - 1;
    hide Screen, Refused;
    if r in AllRows(js[..last], rules, number) {
      RowsAre(js[..last], rules, number, r);
      var i: nat, n: nat :| RowOfLine(js[..last], rules, number, i, n, r);
      assert RowOfLine(js, rules, number, i, n, r);
    } else {
      var j := js[last];
      KeptRowsAre(j.lines, j.strict, rules, number(last), number, r);
      var n: nat :| n < |j.lines| && IsRow(j.lines[n], j.strict, rules, number(last), number(n + 1), r);
      assert RowOfLine(js, rules, number, last, n, r);
    }
  }

  lemma {:induction false} RowsHave(js: seq<Journal>, rules: Rules, number: nat -> string, i: nat, n: nat, k: Screened)
    requires KeptLine(js, rules, i, n, k)
    ensures RowFor(k, number(i), number(n + 1)) in AllRows(js, rules, number)
  {
    var last := |js| - 1;
    hide Screen, Refused;
    if i < last {
      assert KeptLine(js[..last], rules, i, n, k);
      RowsHave(js[..last], rules, number, i, n, k);
    } else {
      KeptRowsHave(js[i].lines, js[i].strict, rules, number(i), number, n);
    }
  }

  /** No journal keeps an earlier capture of the row's host-year: with a status first, then by stamp. */
  ghost predicate Earliest(js: seq<Journal>, rules: Rules, r: Row) {
    forall i: nat, n: nat, k :: KeptLine(js, rules, i, n, k) && k.year == r.year && k.host == r.host ==>
      && (!k.statusless ==> HasStatus(r))
      && (k.statusless == !HasStatus(r) ==> r.stamp != "" && !Less(k.ts, r.stamp[1..]))
  }

  /** The row of a kept line, the earliest capture of its host-year over all journals. */
  ghost predicate LedgerRow(js: seq<Journal>, rules: Rules, number: nat -> string, r: Row) {
    Earliest(js, rules, r) && exists i: nat, n: nat :: RowOfLine(js, rules, number, i, n, r)
  }

  /** A capture of the host-year is kept in some journal. */
  ghost predicate Captures(js: seq<Journal>, rules: Rules, year: string, host: string) {
    exists i: nat, n: nat, k :: KeptLine(js, rules, i, n, k) && k.year == year && k.host == host
  }

  lemma RowStamped(k: Screened, input: string, line: string)
    requires k.Kept?
    ensures var r := RowFor(k, input, line);
      Stamped(r) && (HasStatus(r) <==> !k.statusless) && r.stamp[1..] == k.ts
  {
  }

  /** The first row of a host-year among the sorted rows is its earliest capture over all journals. */
  lemma FirstOfAll(js: seq<Journal>, rules: Rules, number: nat -> string, rows: seq<Row>, r: Row)
    requires (forall q :: q in rows <==> q in AllRows(js, rules, number)) && First(rows, r)
    ensures LedgerRow(js, rules, number, r)
  {
    hide Screen, Refused, AllRows;
    RowsAre(js, rules, number, r);
    var i0: nat, n0: nat :| RowOfLine(js, rules, number, i0, n0, r);
    RowStamped(Screen(js[i0].lines[n0], js[i0].strict, rules), number(i0), number(n0 + 1));
    forall i: nat, n: nat, k | KeptLine(js, rules, i, n, k) && k.year == r.year && k.host == r.host
      ensures !k.statusless ==> HasStatus(r)
      ensures k.statusless == !HasStatus(r) ==> !Less(k.ts, r.stamp[1..])
    {
      RowsHave(js, rules, number, i, n, k);
      RowStamped(k, number(i), number(n + 1));
      FirstIsEarliest(rows, r, RowFor(k, number(i), number(n + 1)));
    }
  }

  lemma {:induction false} AllRowsClean(js: seq<Journal>, rules: Rules, number: nat -> string)
    requires CleanRules(rules) && forall n :: Clean(number(n))
    ensures forall r :: r in AllRows(js, rules, number) ==> CleanRow(r)
  {
    if js != [] {
      var last := |js| - 1;
      AllRowsClean(js[..last], rules, number);
      KeptRowsClean(js[last].lines, js[last].strict, rules, number(last), number);
    }
  }

  lemma HostsAre(js: seq<Journal>, rules: Rules, number: nat -> string, rows: seq<Row>, year: string, host: string)
    requires forall q :: q in rows <==> q in AllRows(js, rules, number)
    ensures Captures(js, rules, year, host) <==> exists r :: r in rows && r.year == year && r.host == host
  {
    hide Screen, Refused, AllRows;
    if Captures(js, rules, year, host) {
      var i: nat, n: nat, k :| KeptLine(js, rules, i, n, k) && k.year == year && k.host == host;
      RowsHave(js, rules, number, i, n, k);
      assert RowFor(k, number(i), number(n + 1)) in rows;
    }
    if r :| r in rows && r.year == year && r.host == host {
      RowsAre(js, rules, number, r);
      var i: nat, n: nat :| RowOfLine(js, rules, number, i, n, r);
      assert KeptLine(js, rules, i, n, Screen(js[i].lines[n], js[i].strict, rules));
    }
  }

  /** A ledger row cites a line: its numbers are those of a journal not refused and of a line in it, and the year, the
      host and the stamp are those of the capture there, flagged when it has no status. */
  ghost predicate Cites(js: seq<Journal>, rules: Rules, number: nat -> string, r: Row) {
    exists i: nat, n: nat ::
      && i < |js| && n < |js[i].lines| && !Refused(js[i].lines, js[i].errorLane, js[i].strict, rules)
      && CitesLine(js[i].lines[n], js[i].strict, rules, r) && r.input == number(i) && r.line == number(n + 1)
  }

  predicate CitesLine(l: JournalLine, strict: bool, rules: Rules, r: Row) {
    && DatesHost(l, strict, rules, r.host) && r.year == l.cap.ts[..4]
    && r.stamp == (if l.cap.status.Some? then "0" else "1") + l.cap.ts
  }

  lemma LedgerCites(js: seq<Journal>, rules: Rules, number: nat -> string, r: Row)
    requires LedgerRow(js, rules, number, r)
    ensures Cites(js, rules, number, r)
  {
    hide Screen, Refused, Earliest;
    var i: nat, n: nat :| RowOfLine(js, rules, number, i, n, r);
    ScreenExactly(js[i].lines[n], js[i].strict, rules);
    assert CitesLine(js[i].lines[n], js[i].strict, rules, r);
  }

  /** From the journals to one year's files, `sorted` being the rows' lines as a bytewise sort leaves them: the
      additions are the hosts that some journal dates to the year and he does not have, in order, and each has one
      ledger row, its earliest capture over all journals. */
  method Exported(js: seq<Journal>, rules: Rules, number: nat -> string, sorted: seq<Row>, year: string,
                  his: set<string>)
    returns (adds: seq<string>, ledger: seq<Row>)
    requires CleanRules(rules) && forall n :: Clean(number(n))
    requires multiset(sorted) == multiset(AllRows(js, rules, number)) && SortedText(sorted)
    ensures forall h :: h in adds <==> Captures(js, rules, year, h) && h !in his
    ensures Ascending(adds) && |ledger| == |adds|
    ensures forall i :: 0 <= i < |adds| ==>
      ledger[i].host == adds[i] && ledger[i].year == year && LedgerRow(js, rules, number, ledger[i])
    ensures forall r :: r in ledger ==> Cites(js, rules, number, r)
  {
    hide Cites, AllRows, SortedText, SortedRows, Captures, LedgerRow, First;
    SamePermuted(sorted, AllRows(js, rules, number));
    AllRowsClean(js, rules, number);
    SortIsRowSort(sorted);
    var names, ev, duplicates;
    ghost var written;
    names, ev, duplicates, written := Dedupe(sorted);
    forall h ensures Captures(js, rules, year, h) <==> year in names && h in names[year] {
      HostsAre(js, rules, number, sorted, year, h);
      NamesAre(sorted, names, ev, year, h);
    }
    adds, ledger := [], [];
    if year in names {
      var already;
      adds, ledger, already := ExportYear(sorted, year, names[year], ev[year], his);
      forall i | 0 <= i < |adds| ensures LedgerRow(js, rules, number, ledger[i]) {
        FirstOfAll(js, rules, number, sorted, ledger[i]);
      }
      forall r | r in ledger ensures Cites(js, rules, number, r) {
        LedgerCites(js, rules, number, r);
      }
    }
  }

  lemma SamePermuted(a: seq<Row>, b: seq<Row>)
    requires multiset(a) == multiset(b)
    ensures forall r :: r in a <==> r in b
  {
    assert forall r :: r in a <==> r in multiset(a);
    assert forall r :: r in b <==> r in multiset(b);
  }

  lemma NamesAre(rows: seq<Row>, names: map<string, seq<string>>, ev: map<string, seq<Row>>, year: string, host: string)
    requires Deduped(rows, names, ev)
    ensures (year in names && host in names[year]) <==> exists r :: r in rows && r.year == year && r.host == host
  {
    if year in names && host in names[year] {
      assert YearFiles(rows, year, names[year], ev[year]);
      var i :| 0 <= i < |names[year]| && names[year][i] == host;
      assert First(rows, ev[year][i]);
    }
  }
}
