/** Booking findings into the two register pages: one row per slug, and a second run that writes nothing. */
module Findings {
  import opened Strings

  // ------------------------------------------------------------------ findings and pages

  datatype Verdict = FIND | CLOSED | BLOCKED | SKIPPED

  /** A finding: what ranks it, the figure and verdict its row shows, the artifact it is looked up by (its
      url, or with no url its host), and the artifacts its row's link cell names. */
  datatype Finding = Finding(slug: string, verdict: Verdict, store: bool, settled: bool, measured: string,
                             artifact: Option<string>, names: seq<string>)

  /** A line of a page: a row with its key, or anything else. */
  datatype Line = Row(slug: string, isFind: bool, measured: string, names: seq<string>) | Other(text: string)

  /** The lines up to the table's separator, the run of table lines, and the rest. */
  datatype Page = Page(head: seq<Line>, table: seq<Line>, tail: seq<Line>)

  function RowOf(f: Finding): Line {
    Row(f.slug, f.verdict.FIND?, f.measured, f.names)
  }

  function LinesOf(p: Page): seq<Line> {
    p.head + p.table + p.tail
  }

  /** Each slug's topmost row. */
  function Top(lines: seq<Line>): (m: map<string, Line>)
    ensures forall s :: s in m ==> m[s].Row? && m[s].slug == s
  {
    if lines == [] then map[]
    else
      var rest := Top(lines[1..]);
      if lines[0].Row? then rest[lines[0].slug := lines[0]] else rest
  }

  lemma TopNone()
    ensures Top([]) == map[]
  {
  }

  lemma TopAt(lines: seq<Line>, i: nat)
    requires i < |lines|
    ensures Top(lines[i..]) ==
      (if lines[i].Row? then Top(lines[i + 1..])[lines[i].slug := lines[i]] else Top(lines[i + 1..]))
  {
    assert lines[i..][1..] == lines[i + 1..];
  }

  lemma KeptNone(table: seq<Line>, slugs: set<string>)
    ensures Kept(table[|table|..], slugs) == []
  {
  }

  lemma KeptAt(table: seq<Line>, slugs: set<string>, i: nat)
    requires i < |table|
    ensures Kept(table[i..], slugs) ==
      (if table[i].Row? && table[i].slug in slugs then [] else [table[i]]) + Kept(table[i + 1..], slugs)
  {
    assert table[i..][1..] == table[i + 1..];
  }

  /** The artifacts that a page's rows name. */
  function Named(top: map<string, Line>): set<string> {
    set s, a | s in top && top[s].Row? && a in top[s].names :: a
  }

  function Kept(table: seq<Line>, slugs: set<string>): seq<Line> {
    if table == [] then []
    else (if table[0].Row? && table[0].slug in slugs then [] else [table[0]]) + Kept(table[1..], slugs)
  }

  function Slugs(rows: seq<Line>): set<string> {
    set i | 0 <= i < |rows| && rows[i].Row? :: rows[i].slug
  }

  /** The rows at the top of the table, without the old rows of their slugs. */
  function Inserted(p: Page, rows: seq<Line>): Page {
    p.(table := rows + Kept(p.table, Slugs(rows)))
  }

  /** The scan of a page, keeping the first row of each slug. */
  method ReadSlugs(p: Page) returns (out: map<string, Line>)
    ensures out == Top(LinesOf(p))
  {
    hide Top;
    var lines := LinesOf(p);
    TopNone();
    assert lines[0..] == lines;
    out := map[];
    for i := 0 to |lines|
      invariant Top(lines) == Top(lines[i..]) + out
    {
      TopAt(lines, i);
      if lines[i].Row? && lines[i].slug !in out { out := out[lines[i].slug := lines[i]]; }
    }
    assert lines[|lines|..] == [];
    assert Top([]) + out == out;
  }

  method Insert(p: Page, rows: seq<Line>) returns (q: Page, dropped: nat)
    ensures q == Inserted(p, rows)
    ensures q.head == p.head && q.tail == p.tail && |q.table| == |rows| + |p.table| - dropped
  {
    hide Kept, Slugs;
    var slugs := Slugs(rows);
    assert p.table[0..] == p.table;
    var kept: seq<Line> := [];
    dropped := 0;
    for i := 0 to |p.table|
      invariant kept + Kept(p.table[i..], slugs) == Kept(p.table, slugs)
      invariant |kept| == i - dropped
    {
      KeptAt(p.table, slugs, i);
      ghost var rest := Kept(p.table[i + 1..], slugs);
      assert kept + ([p.table[i]] + rest) == (kept + [p.table[i]]) + rest;
      assert kept + ([] + rest) == kept + rest;
      if p.table[i].Row? && p.table[i].slug in slugs {
        dropped := dropped + 1;
      } else {
        kept := kept + [p.table[i]];
      }
    }
    KeptNone(p.table, slugs);
    assert kept + [] == kept;
    q := p.(table := rows + kept);
  }

  // ------------------------------------------------------------------ one finding per slug

  function Rank(v: Verdict): nat {
    match v
    case FIND => 3
    case CLOSED => 2
    case BLOCKED => 1
    case SKIPPED => 0
  }

  function Score(f: Finding): nat {
    4 * Rank(f.verdict) + (if f.store then 2 else 0) + if f.settled then 1 else 0
  }

  /** A measurement says more than a closed lead, that more than a blocked one, and that more than a skipped one. */
  predicate Above(v: Verdict, w: Verdict) {
    match v
    case FIND => w != FIND
    case CLOSED => w == BLOCKED || w == SKIPPED
    case BLOCKED => w == SKIPPED
    case SKIPPED => false
  }

  /** Which of two findings says more: by verdict, then by a sidecar, then by a settled verify. */
  lemma ScoreExactly(f: Finding, g: Finding)
    ensures Score(f) > Score(g) <==>
      || Above(f.verdict, g.verdict)
      || (f.verdict == g.verdict && f.store && !g.store)
      || (f.verdict == g.verdict && f.store == g.store && f.settled && !g.settled)
  {
  }

  /** f says the most of its slug's findings, and is the first that does. */
  ghost predicate Best(fs: seq<Finding>, f: Finding) {
    exists i: nat :: i < |fs| && fs[i] == f &&
      forall j :: 0 <= j < |fs| && fs[j].slug == f.slug ==>
        Score(fs[j]) <= Score(f) && (j < i ==> Score(fs[j]) < Score(f))
  }

  lemma BestMore(fs: seq<Finding>, f: Finding, g: Finding)
    requires Best(fs, f)
    ensures g.slug != f.slug || Score(g) <= Score(f) ==> Best(fs + [g], f)
    ensures g.slug == f.slug && Score(g) > Score(f) ==> Best(fs + [g], g)
  {
    var all := fs + [g];
    var i: nat :| i < |fs| && fs[i] == f &&
      forall j :: 0 <= j < |fs| && fs[j].slug == f.slug ==>
        Score(fs[j]) <= Score(f) && (j < i ==> Score(fs[j]) < Score(f));
    assert all[i] == f && all[|fs|] == g;
  }

  lemma BestFirst(fs: seq<Finding>, g: Finding)
    requires forall f :: f in fs ==> f.slug != g.slug
    ensures Best(fs + [g], g)
  {
    assert (fs + [g])[|fs|] == g;
  }

  lemma {:induction false} LeastExists(s: set<string>)
    requires s != {}
    ensures exists x :: x in s && forall y :: y in s ==> !Less(y, x)
    decreases |s|
  {
    var x :| x in s;
    LessTotal(x, x);
    if s != {x} {
      LeastExists(s - {x});
      var z :| z in s - {x} && forall y :: y in s - {x} ==> !Less(y, z);
      if Less(x, z) {
        forall y | y in s ensures !Less(y, x) {
          if Less(y, x) && y != x {
            LessTotal(y, x);
            LessTotal(x, z);
            if y != z { LessTransitive(y, x, z); }
          }
        }
      } else {
        assert z in s && forall y :: y in s ==> !Less(y, z);
      }
    } else {
      assert forall y :: y in s ==> y == x;
    }
  }

  predicate SlugsDistinct(fs: seq<Finding>) {
    forall i, j :: 0 <= i < j < |fs| ==> fs[i].slug != fs[j].slug
  }

  method Sorted(best: map<string, Finding>) returns (out: seq<Finding>)
    requires forall s :: s in best ==> best[s].slug == s
    ensures SlugsDistinct(out)
    ensures forall f :: f in out <==> f.slug in best && f == best[f.slug]
    ensures forall s :: s in best ==> best[s] in out
    ensures forall i, j :: 0 <= i < j < |out| ==> !Less(out[j].slug, out[i].slug)
  {
    hide Less;
    out := [];
    var left := best.Keys;
    while left != {}
      invariant left <= best.Keys && SlugsDistinct(out)
      invariant forall f :: f in out ==> f.slug in best && f == best[f.slug] && f.slug !in left
      invariant forall s :: s in best && s !in left ==> best[s] in out
      invariant forall f, s :: f in out && s in left ==> !Less(s, f.slug)
      invariant forall i, j :: 0 <= i < j < |out| ==> !Less(out[j].slug, out[i].slug)
      decreases left
    {
      LeastExists(left);
      var s :| s in left && forall y :: y in left ==> !Less(y, s);
      assert forall i :: 0 <= i < |out| ==> out[i] in out;
      out := out + [best[s]];
      left := left - {s};
    }
  }

  /** Each slug once, in order, with the finding of it that says the most first. */
  ghost predicate Chosen(fs: seq<Finding>, out: seq<Finding>) {
    && SlugsDistinct(out) && (forall f :: f in out ==> f in fs && Best(fs, f))
    && (forall f :: f in fs ==> HasSlug(out, f.slug))
    && (forall i, j :: 0 <= i < j < |out| ==> !Less(out[j].slug, out[i].slug))
  }

  ghost predicate HasSlug(fs: seq<Finding>, slug: string) {
    exists g :: g in fs && g.slug == slug
  }

  lemma BestUnique(fs: seq<Finding>, f: Finding, g: Finding)
    requires Best(fs, f) && Best(fs, g) && f.slug == g.slug
    ensures f == g
  {
  }

  lemma ChosenIn(fs: seq<Finding>, out: seq<Finding>, out': seq<Finding>, f: Finding)
    requires Chosen(fs, out) && Chosen(fs, out') && f in out
    ensures f in out'
  {
    assert HasSlug(out', f.slug);
    var g :| g in out' && g.slug == f.slug;
    BestUnique(fs, f, g);
  }

  /** Two slug-ordered lists of the same findings are one list. */
  lemma {:induction false} OrderedUnique(a: seq<Finding>, b: seq<Finding>)
    requires SlugsDistinct(a) && SlugsDistinct(b) && forall f :: f in a <==> f in b
    requires forall i, j :: 0 <= i < j < |a| ==> !Less(a[j].slug, a[i].slug)
    requires forall i, j :: 0 <= i < j < |b| ==> !Less(b[j].slug, b[i].slug)
    ensures a == b
  {
    SomeFirst(b);
    if a == [] {
    } else {
      assert a[0] in b && b != [] && b[0] in a;
      FirstSame(a, b);
      var x, y := a[1..], b[1..];
      assert a == [a[0]] + x && b == [b[0]] + y;
      BehindFirst(a);
      BehindFirst(b);
      OrderedUnique(x, y);
    }
  }

  lemma SomeFirst(fs: seq<Finding>)
    ensures fs == [] || fs[0] in fs
  {
  }

  lemma BehindFirst(a: seq<Finding>)
    requires a != [] && SlugsDistinct(a)
    ensures forall f :: f in a[1..] <==> f in a && f != a[0]
  {
    assert a == [a[0]] + a[1..];
    forall i | 0 <= i < |a| - 1 ensures a[1..][i] != a[0] { assert a[0].slug != a[i + 1].slug; }
  }

  lemma FirstSame(a: seq<Finding>, b: seq<Finding>)
    requires a != [] && b != [] && a[0] in b && b[0] in a && SlugsDistinct(a)
    requires forall i, j :: 0 <= i < j < |a| ==> !Less(a[j].slug, a[i].slug)
    requires forall i, j :: 0 <= i < j < |b| ==> !Less(b[j].slug, b[i].slug)
    ensures a[0] == b[0]
  {
    hide Less;
    var i :| 0 <= i < |a| && a[i] == b[0];
    var j :| 0 <= j < |b| && b[j] == a[0];
    LessTotal(a[0].slug, b[0].slug);
    assert i > 0 ==> a[0].slug != a[i].slug;
  }

  /** A drain has one choice. */
  lemma ChosenUnique(fs: seq<Finding>, out: seq<Finding>, out': seq<Finding>)
    requires Chosen(fs, out) && Chosen(fs, out')
    ensures out == out'
  {
    forall f ensures f in out <==> f in out' {
      if f in out { ChosenIn(fs, out, out', f); }
      if f in out' { ChosenIn(fs, out', out, f); }
    }
    OrderedUnique(out, out');
  }

  method OnePerSlug(fs: seq<Finding>) returns (out: seq<Finding>)
    ensures Chosen(fs, out)
  {
    hide Best, Score, Less;
    var best: map<string, Finding> := map[];
    for k := 0 to |fs|
      invariant forall s :: s in best ==> best[s].slug == s && best[s] in fs[..k] && Best(fs[..k], best[s])
      invariant forall f :: f in fs[..k] ==> f.slug in best
    {
      var f := fs[k];
      ghost var seen := fs[..k];
      assert fs[..k + 1] == seen + [f];
      forall s | s in best
        ensures f.slug != s || Score(f) <= Score(best[s]) ==> Best(seen + [f], best[s])
        ensures f.slug == s && Score(f) > Score(best[s]) ==> Best(seen + [f], f)
      {
        BestMore(seen, best[s], f);
      }
      if f.slug !in best { BestFirst(seen, f); }
      if f.slug !in best || Score(f) > Score(best[f.slug]) {
        best := best[f.slug := f];
      }
    }
    assert fs[..|fs|] == fs;
    out := Sorted(best);
    forall f | f in fs ensures HasSlug(out, f.slug) { assert best[f.slug] in out; }
  }

  // ------------------------------------------------------------------ what one finding does

  datatype Fate = New | Replace | Booked

  function FateOf(f: Finding, onPage: map<string, Line>, closed: set<string>, named: set<string>): Fate {
    if f.slug in closed then Booked
    else if f.slug !in onPage then
      if !f.verdict.FIND? && f.artifact.Some? && f.artifact.value in named then Booked else New
    else
      var was := onPage[f.slug];
      if !f.verdict.FIND? || was.Other? || !was.isFind || was.measured == f.measured then Booked else Replace
  }

  /** What one run writes and counts. */
  datatype Writes = Writes(rows: seq<Line>, closed: seq<Line>, new': nat, replaced: nat, booked: nat)

  function Pass(fs: seq<Finding>, onPage: map<string, Line>, closed: set<string>, named: set<string>): Writes {
    if fs == [] then Writes([], [], 0, 0, 0)
    else
      var f := fs[0];
      match FateOf(f, onPage, closed, named)
      case Booked => var w := Pass(fs[1..], onPage, closed, named); w.(booked := w.booked + 1)
      case Replace =>
        var w := Pass(fs[1..], onPage, closed, named); w.(rows := [RowOf(f)] + w.rows, replaced := w.replaced + 1)
      case New =>
        if f.verdict.FIND? then
          var w := Pass(fs[1..], onPage, closed, named); w.(rows := [RowOf(f)] + w.rows, new' := w.new' + 1)
        else
          var w := Pass(fs[1..], onPage, closed + {f.slug}, named + set a | a in f.names);
          w.(closed := [RowOf(f)] + w.closed, new' := w.new' + 1)
  }

  function Run(fs: seq<Finding>, register: Page, closedPage: Page): Writes {
    var c := Top(LinesOf(closedPage));
    Pass(fs, Top(LinesOf(register)), c.Keys, Named(c))
  }

  // ------------------------------------------------------------------ the pages after a run

  lemma {:induction false} TopConcat(a: seq<Line>, b: seq<Line>)
    ensures Top(a + b) == Top(b) + Top(a)
  {
    hide Top;
    TopNone();
    if a == [] {
      assert a + b == b;
    } else {
      TopConcat(a[1..], b);
      var all := a + b;
      TopAt(a, 0);
      TopAt(all, 0);
      assert all[0..] == all && a[0..] == a && all[1..] == a[1..] + b;
    }
  }

  lemma {:induction false} TopKept(table: seq<Line>, slugs: set<string>, s: string)
    ensures s in Top(Kept(table, slugs)) <==> s in Top(table) && s !in slugs
    ensures s in Top(Kept(table, slugs)) ==> Top(Kept(table, slugs))[s] == Top(table)[s]
  {
    hide Top, Kept;
    TopNone();
    KeptNone(table, slugs);
    if table == [] {
      assert table[0..] == [];
    } else {
      TopKept(table[1..], slugs, s);
      TopAt(table, 0);
      KeptAt(table, slugs, 0);
      assert table[0..] == table;
      var rest, line := Kept(table[1..], slugs), table[0];
      if line.Row? && line.slug in slugs {
        assert [] + rest == rest;
      } else {
        var all := [line] + rest;
        TopAt(all, 0);
        assert all[0..] == all && all[1..] == rest;
      }
    }
  }

  /** Rows with slugs, no two the same. */
  ghost predicate NewRows(rows: seq<Line>) {
    && (forall r :: r in rows ==> r.Row?)
    && forall i, j :: 0 <= i < j < |rows| && rows[i].Row? && rows[j].Row? ==> rows[i].slug != rows[j].slug
  }

  lemma {:induction false} TopRows(rows: seq<Line>, i: nat)
    requires NewRows(rows) && i < |rows|
    ensures rows[i].slug in Top(rows) && Top(rows)[rows[i].slug] == rows[i]
  {
    if i > 0 {
      assert rows[1..][i - 1] == rows[i] && rows[i] in rows && rows[0] in rows;
      TopRows(rows[1..], i - 1);
    } else {
      assert rows[0] in rows;
    }
  }

  lemma {:induction false} TopOnly(rows: seq<Line>, s: string)
    ensures s in Top(rows) <==> s in Slugs(rows)
  {
    if rows != [] {
      TopOnly(rows[1..], s);
      if s in Slugs(rows[1..]) {
        var i :| 0 <= i < |rows[1..]| && rows[1..][i].Row? && rows[1..][i].slug == s;
        assert rows[i + 1].Row? && rows[i + 1].slug == s;
      }
      if s in Slugs(rows) {
        var i :| 0 <= i < |rows| && rows[i].Row? && rows[i].slug == s;
        if i > 0 { assert rows[1..][i - 1] == rows[i]; }
      }
    }
  }

  lemma TopPage(p: Page)
    ensures Top(LinesOf(p)) == Top(p.tail) + Top(p.table) + Top(p.head)
  {
    TopConcat(p.head + p.table, p.tail);
    TopConcat(p.head, p.table);
  }

  /** A slug not written keeps its topmost row, or stays off the page. */
  lemma OthersStay(p: Page, rows: seq<Line>, s: string)
    requires s !in Slugs(rows)
    ensures var q := Inserted(p, rows);
      && (s in Top(LinesOf(q)) <==> s in Top(LinesOf(p)))
      && (s in Top(LinesOf(p)) ==> Top(LinesOf(q))[s] == Top(LinesOf(p))[s])
  {
    hide Top, Slugs;
    var q := Inserted(p, rows);
    TopPage(p);
    TopPage(q);
    TopConcat(rows, Kept(p.table, Slugs(rows)));
    TopKept(p.table, Slugs(rows), s);
    TopOnly(rows, s);
  }

  /** A row written is its slug's topmost, unless the slug has a row above the table. */
  lemma WrittenOnTop(p: Page, rows: seq<Line>, i: nat)
    requires NewRows(rows) && i < |rows|
    ensures rows[i].Row?
    ensures var s, q := rows[i].slug, Inserted(p, rows);
      && s in Top(LinesOf(q))
      && Top(LinesOf(q))[s] == (if s in Top(p.head) then Top(p.head)[s] else rows[i])
      && (s in Top(p.head) ==> s in Top(LinesOf(p)) && Top(LinesOf(p))[s] == Top(p.head)[s])
  {
    assert rows[i] in rows;
    var q := Inserted(p, rows);
    TopRows(rows, i);
    hide Top, Slugs;
    TopPage(p);
    TopPage(q);
    TopConcat(rows, Kept(p.table, Slugs(rows)));
  }

  // ------------------------------------------------------------------ a second run

  ghost predicate FromFindings(rows: seq<Line>, fs: seq<Finding>, find: bool) {
    && NewRows(rows)
    && forall r :: r in rows ==> exists f :: f in fs && r == RowOf(f) && f.verdict.FIND? == find
  }

  lemma FromRest(rows: seq<Line>, fs: seq<Finding>, find: bool)
    requires SlugsDistinct(fs) && fs != [] && FromFindings(rows, fs[1..], find)
    ensures FromFindings(rows, fs, find)
    ensures fs[0].verdict.FIND? == find ==> FromFindings([RowOf(fs[0])] + rows, fs, find)
    ensures fs[0].slug !in Slugs(rows)
  {
    var f, more := fs[0], [RowOf(fs[0])] + rows;
    forall r | r in rows
      ensures r.Row? && r.slug != f.slug && exists g :: g in fs && r == RowOf(g) && g.verdict.FIND? == find
    {
      var g :| g in fs[1..] && r == RowOf(g) && g.verdict.FIND? == find;
      var k :| 0 <= k < |fs[1..]| && fs[1..][k] == g;
      assert fs[k + 1] == g;
    }
    assert forall i :: 0 < i < |more| ==> more[i] in rows;
    assert forall i :: 0 <= i < |rows| ==> rows[i] in rows;
    if f.verdict.FIND? == find {
      assert f in fs && RowOf(f) == more[0];
      forall i, j | 0 <= i < j < |more| ensures more[i].slug != more[j].slug {
        if i > 0 { assert more[i] == rows[i - 1] && more[j] == rows[j - 1]; }
      }
    }
  }

  /** What a run writes: rows of its own findings, one each, the measurements apart from the rest. */
  lemma {:induction false} PassWrites(fs: seq<Finding>, onPage: map<string, Line>, closed: set<string>,
                                      named: set<string>)
    requires SlugsDistinct(fs)
    ensures var w := Pass(fs, onPage, closed, named);
      && FromFindings(w.rows, fs, true) && FromFindings(w.closed, fs, false)
      && |w.rows| + |w.closed| == w.new' + w.replaced && w.new' + w.replaced + w.booked == |fs|
    decreases |fs|
  {
    if fs != [] {
      var f := fs[0];
      var more := !f.verdict.FIND? && FateOf(f, onPage, closed, named).New?;
      var closed', named' := if more then closed + {f.slug} else closed,
                             if more then named + (set a | a in f.names) else named;
      PassWrites(fs[1..], onPage, closed', named');
      var w := Pass(fs[1..], onPage, closed', named');
      FromRest(w.rows, fs, true);
      FromRest(w.closed, fs, false);
    }
  }

  /** What the second run's pages hold of the first run's. */
  ghost predicate Follows(fs: seq<Finding>, w: Writes, onPage: map<string, Line>, closed: set<string>,
                          named: set<string>,
                          onPage': map<string, Line>, closed': set<string>, named': set<string>) {
    && closed + Slugs(w.closed) <= closed'
    && named + NamesOf(w.closed) <= named'
    && (forall f :: f in fs && f.slug in onPage && f.slug !in Slugs(w.rows) ==>
          f.slug in onPage' && onPage'[f.slug] == onPage[f.slug])
    && (forall r :: r in w.rows && r.Row? ==> Settles(onPage', r))
  }

  ghost predicate Settles(onPage': map<string, Line>, r: Line)
    requires r.Row?
  {
    r.slug in onPage' && (onPage'[r.slug].Row? && onPage'[r.slug].isFind ==> onPage'[r.slug].measured == r.measured)
  }

  function NamesOf(rows: seq<Line>): set<string> {
    set i, a | 0 <= i < |rows| && rows[i].Row? && a in rows[i].names :: a
  }

  lemma SlugsMore(r: Line, rows: seq<Line>)
    requires r.Row?
    ensures Slugs([r] + rows) == Slugs(rows) + {r.slug}
    ensures NamesOf([r] + rows) == NamesOf(rows) + set a | a in r.names
  {
    var all := [r] + rows;
    assert all[0] == r;
    forall s | s in Slugs(rows) ensures s in Slugs(all) {
      var i :| 0 <= i < |rows| && rows[i].Row? && rows[i].slug == s;
      assert all[i + 1] == rows[i];
    }
    forall a | a in NamesOf(rows) ensures a in NamesOf(all) {
      var i :| 0 <= i < |rows| && rows[i].Row? && a in rows[i].names;
      assert all[i + 1] == rows[i];
    }
  }

  lemma OthersDiffer(fs: seq<Finding>)
    requires SlugsDistinct(fs) && fs != []
    ensures forall g :: g in fs[1..] ==> g in fs && g.slug != fs[0].slug
  {
    forall g | g in fs[1..] ensures g in fs && g.slug != fs[0].slug {
      var k :| 0 <= k < |fs[1..]| && fs[1..][k] == g;
      assert fs[k + 1] == g;
    }
  }

  function ClosedNext(f: Finding, onPage: map<string, Line>, closed: set<string>, named: set<string>)
    : (set<string>, set<string>)
  {
    if !f.verdict.FIND? && FateOf(f, onPage, closed, named).New? then (closed + {f.slug}, named + set a | a in f.names)
    else (closed, named)
  }

  /** The first finding: whatever the run did with it, the pages after have it booked. */
  lemma FirstBooked(fs: seq<Finding>, onPage: map<string, Line>, closed: set<string>, named: set<string>,
                    onPage': map<string, Line>, closed': set<string>, named': set<string>)
    requires SlugsDistinct(fs) && fs != []
    requires Follows(fs, Pass(fs, onPage, closed, named), onPage, closed, named, onPage', closed', named')
    ensures FateOf(fs[0], onPage', closed', named').Booked?
  {
    hide Pass, Slugs, NamesOf;
    var f := fs[0];
    var next := ClosedNext(f, onPage, closed, named);
    var rest, w := Pass(fs[1..], onPage, next.0, next.1), Pass(fs, onPage, closed, named);
    PassAt(fs, 0, onPage, closed, named);
    assert fs[0..] == fs && fs[0] in fs;
    SlugsMore(RowOf(f), rest.closed);
    PassWrites(fs[1..], onPage, next.0, next.1);
    FromRest(rest.rows, fs, true);
    if w.rows != [] && w.rows[0] == RowOf(f) { assert w.rows[0] in w.rows && Settles(onPage', RowOf(f)); }
  }

  lemma RestFollows(fs: seq<Finding>, onPage: map<string, Line>, closed: set<string>, named: set<string>,
                    onPage': map<string, Line>, closed': set<string>, named': set<string>)
    requires SlugsDistinct(fs) && fs != []
    requires Follows(fs, Pass(fs, onPage, closed, named), onPage, closed, named, onPage', closed', named')
    ensures var next := ClosedNext(fs[0], onPage, closed, named);
      Follows(fs[1..], Pass(fs[1..], onPage, next.0, next.1), onPage, next.0, next.1, onPage', closed', named')
  {
    hide Pass, Slugs, NamesOf, FateOf, Settles;
    var f := fs[0];
    var next := ClosedNext(f, onPage, closed, named);
    var rest := Pass(fs[1..], onPage, next.0, next.1);
    PassAt(fs, 0, onPage, closed, named);
    assert fs[0..] == fs;
    SlugsMore(RowOf(f), rest.closed);
    SlugsMore(RowOf(f), rest.rows);
    OthersDiffer(fs);
  }

  /** Whatever a run did with a finding, pages that hold what it wrote have it booked. */
  lemma {:induction false} AllBooked(fs: seq<Finding>, onPage: map<string, Line>, closed: set<string>,
                                     named: set<string>,
                                     onPage': map<string, Line>, closed': set<string>, named': set<string>)
    requires SlugsDistinct(fs)
    requires Follows(fs, Pass(fs, onPage, closed, named), onPage, closed, named, onPage', closed', named')
    ensures forall f :: f in fs ==> FateOf(f, onPage', closed', named').Booked?
    decreases |fs|
  {
    if fs != [] {
      hide Pass, FateOf, Follows, ClosedNext;
      FirstBooked(fs, onPage, closed, named, onPage', closed', named');
      RestFollows(fs, onPage, closed, named, onPage', closed', named');
      var next := ClosedNext(fs[0], onPage, closed, named);
      AllBooked(fs[1..], onPage, next.0, next.1, onPage', closed', named');
      assert fs == [fs[0]] + fs[1..];
    }
  }

  ghost predicate FromUnbooked(r: Line, fs: seq<Finding>, onPage: map<string, Line>, closed: set<string>,
                               named: set<string>) {
    exists f :: f in fs && r == RowOf(f) && f.verdict.FIND? && !FateOf(f, onPage, closed, named).Booked?
  }

  /** A measurement is written exactly when the pages as they were did not have it booked. */
  lemma {:induction false} PassRows(fs: seq<Finding>, onPage: map<string, Line>, closed: set<string>,
                                    named: set<string>)
    requires SlugsDistinct(fs)
    ensures var w := Pass(fs, onPage, closed, named);
      && (forall r :: r in w.rows ==> FromUnbooked(r, fs, onPage, closed, named))
      && (forall f :: f in fs && f.verdict.FIND? && !FateOf(f, onPage, closed, named).Booked? ==> RowOf(f) in w.rows)
    decreases |fs|
  {
    if fs != [] {
      hide Pass, NamesOf;
      var f := fs[0];
      var more := !f.verdict.FIND? && FateOf(f, onPage, closed, named).New?;
      var closed', named' := if more then closed + {f.slug} else closed,
                             if more then named + (set a | a in f.names) else named;
      PassAt(fs, 0, onPage, closed, named);
      assert fs[0..] == fs;
      var w := Pass(fs[1..], onPage, closed', named');
      OthersDiffer(fs);
      assert fs == [f] + fs[1..];
      PassRows(fs[1..], onPage, closed', named');
      forall r | r in w.rows ensures FromUnbooked(r, fs, onPage, closed, named) {
        assert FromUnbooked(r, fs[1..], onPage, closed', named');
      }
    }
  }

  /** A re-measurement is counted as replaced. */
  lemma {:induction false} PassReplaces(fs: seq<Finding>, onPage: map<string, Line>, closed: set<string>,
                                        named: set<string>, g: Finding)
    requires SlugsDistinct(fs) && g in fs && FateOf(g, onPage, closed, named).Replace?
    ensures Pass(fs, onPage, closed, named).replaced > 0
    decreases |fs|
  {
    hide Pass;
    var f := fs[0];
    PassAt(fs, 0, onPage, closed, named);
    assert fs[0..] == fs == [f] + fs[1..];
    if g != f {
      OthersDiffer(fs);
      var more := !f.verdict.FIND? && FateOf(f, onPage, closed, named).New?;
      PassReplaces(fs[1..], onPage, if more then closed + {f.slug} else closed,
                   if more then named + (set a | a in f.names) else named, g);
    }
  }

  /** A closed row is written only for a slug off the closed page. */
  lemma {:induction false} PassCloses(fs: seq<Finding>, onPage: map<string, Line>, closed: set<string>,
                                      named: set<string>)
    requires SlugsDistinct(fs)
    ensures Slugs(Pass(fs, onPage, closed, named).closed) !! closed
    decreases |fs|
  {
    if fs != [] {
      hide Pass, NamesOf;
      var f := fs[0];
      var more := !f.verdict.FIND? && FateOf(f, onPage, closed, named).New?;
      var closed', named' := if more then closed + {f.slug} else closed,
                             if more then named + (set a | a in f.names) else named;
      PassAt(fs, 0, onPage, closed, named);
      assert fs[0..] == fs;
      var w := Pass(fs[1..], onPage, closed', named');
      OthersDiffer(fs);
      assert fs == [f] + fs[1..];
      PassCloses(fs[1..], onPage, closed', named');
      SlugsMore(RowOf(f), w.closed);
    }
  }

  lemma PassFates(fs: seq<Finding>, onPage: map<string, Line>, closed: set<string>, named: set<string>)
    requires SlugsDistinct(fs)
    ensures var w := Pass(fs, onPage, closed, named);
      && (forall r :: r in w.rows ==> FromUnbooked(r, fs, onPage, closed, named))
      && (forall f :: f in fs && f.verdict.FIND? && !FateOf(f, onPage, closed, named).Booked? ==> RowOf(f) in w.rows)
      && (forall f :: f in fs && FateOf(f, onPage, closed, named).Replace? ==> w.replaced > 0)
      && Slugs(w.closed) !! closed
  {
    hide Pass, Slugs, FateOf;
    PassRows(fs, onPage, closed, named);
    forall f | f in fs && FateOf(f, onPage, closed, named).Replace?
      ensures Pass(fs, onPage, closed, named).replaced > 0
    {
      PassReplaces(fs, onPage, closed, named, f);
    }
    PassCloses(fs, onPage, closed, named);
  }

  // ------------------------------------------------------------------ what a run writes, from the pages alone

  /** Some row names the artifact. */
  predicate NamedIn(rows: map<string, Line>, a: string) {
    exists s :: s in rows && rows[s].Row? && a in rows[s].names
  }

  /** Finding i and an earlier one that was written to the closed page: its row names the artifact. */
  predicate NamedEarlier(fs: seq<Finding>, closed: seq<Line>, i: nat, a: string)
    requires i <= |fs|
  {
    exists j :: 0 <= j < i && RowOf(fs[j]) in closed && a in fs[j].names
  }

  lemma RowSlugs(rows: seq<Line>, f: Finding)
    requires f.slug !in Slugs(rows)
    ensures RowOf(f) !in rows
  {
  }

  lemma NamedEarlierRest(fs: seq<Finding>, closed: seq<Line>, rest: seq<Line>, i: nat, a: string)
    requires SlugsDistinct(fs) && 0 < i <= |fs|
    requires closed == rest || closed == [RowOf(fs[0])] + rest
    ensures NamedEarlier(fs, closed, i, a) <==>
      (RowOf(fs[0]) in closed && a in fs[0].names) || NamedEarlier(fs[1..], rest, i - 1, a)
  {
    if j :| 0 <= j < i && RowOf(fs[j]) in closed && a in fs[j].names {
      if j > 0 {
        assert fs[1..][j - 1] == fs[j] && fs[j].slug != fs[0].slug;
        assert RowOf(fs[1..][j - 1]) in rest;
      }
    }
    if j :| 0 <= j < i - 1 && RowOf(fs[1..][j]) in rest && a in fs[1..][j].names {
      assert fs[j + 1] == fs[1..][j];
    }
  }

  /** The pass writes finding i to the closed page. */
  lemma {:induction false} PassClosesIt(fs: seq<Finding>, onPage: map<string, Line>, closed: set<string>,
                                        named: set<string>, i: nat)
    requires SlugsDistinct(fs) && i < |fs| && !fs[i].verdict.FIND?
    ensures var f, w := fs[i], Pass(fs, onPage, closed, named);
      RowOf(f) in w.closed <==>
        && f.slug !in closed && f.slug !in onPage
        && (f.artifact.Some? ==> f.artifact.value !in named && !NamedEarlier(fs, w.closed, i, f.artifact.value))
    decreases |fs|
  {
    hide Pass, Slugs, NamesOf, NamedEarlier;
    var w := Pass(fs, onPage, closed, named);
    var next := ClosedNext(fs[0], onPage, closed, named);
    var rest := Pass(fs[1..], onPage, next.0, next.1);
    PassAt(fs, 0, onPage, closed, named);
    assert fs[0..] == fs;
    PassWrites(fs[1..], onPage, next.0, next.1);
    FromRest(rest.closed, fs, false);
    RowSlugs(rest.closed, fs[0]);
    var f := fs[i];
    if i == 0 {
      if f.artifact.Some? { NoneEarlier(fs, w.closed, f.artifact.value); }
    } else {
      assert fs[1..][i - 1] == f && f.slug != fs[0].slug;
      PassClosesIt(fs[1..], onPage, next.0, next.1, i - 1);
      if f.artifact.Some? { NamedEarlierRest(fs, w.closed, rest.closed, i, f.artifact.value); }
    }
  }

  lemma NoneEarlier(fs: seq<Finding>, closed: seq<Line>, a: string)
    ensures !NamedEarlier(fs, closed, 0, a)
  {
  }

  /** A finding that is no measurement is written to the closed page if and only if its slug is on neither page, no row
      that the closed page shows names its artifact, and none written before it in this run does. */
  lemma ClosedExactly(fs: seq<Finding>, register: Page, closedPage: Page, i: nat)
    requires SlugsDistinct(fs) && i < |fs| && !fs[i].verdict.FIND?
    ensures var f, w, c := fs[i], Run(fs, register, closedPage), Top(LinesOf(closedPage));
      RowOf(f) in w.closed <==>
        && f.slug !in c && f.slug !in Top(LinesOf(register))
        && (f.artifact.Some? ==>
              !NamedIn(c, f.artifact.value) && !NamedEarlier(fs, w.closed, i, f.artifact.value))
  {
    hide Top, Pass, NamedEarlier, FateOf;
    var c := Top(LinesOf(closedPage));
    PassClosesIt(fs, Top(LinesOf(register)), c.Keys, Named(c), i);
  }

  /** The rows of a run show their findings: measurements on the register, the others on the closed page. */
  lemma RowsShow(fs: seq<Finding>, register: Page, closedPage: Page, r: Line)
    requires SlugsDistinct(fs)
    ensures var w := Run(fs, register, closedPage);
      r in w.rows || r in w.closed ==>
        && r.Row? && r.isFind == (r in w.rows)
        && exists f :: f in fs && f.slug == r.slug && f.verdict.FIND? == r.isFind && f.measured == r.measured
             && f.names == r.names
  {
    var top, c := Top(LinesOf(register)), Top(LinesOf(closedPage));
    hide Top, Pass, Named;
    PassWrites(fs, top, c.Keys, Named(c));
    var w := Run(fs, register, closedPage);
    if r in w.rows { var f :| f in fs && r == RowOf(f) && f.verdict.FIND?; }
    if r in w.closed { var f :| f in fs && r == RowOf(f) && !f.verdict.FIND?; }
  }

  /** A measurement whose slug is not closed and whose topmost register row is a measurement with another figure. */
  predicate Remeasured(f: Finding, top: map<string, Line>, c: map<string, Line>) {
    && f.verdict.FIND? && f.slug !in c
    && f.slug in top && top[f.slug].Row? && top[f.slug].isFind && top[f.slug].measured != f.measured
  }

  /** A measurement is written if and only if it is new to both pages or measures its row again. */
  lemma MeasuredExactly(fs: seq<Finding>, register: Page, closedPage: Page, f: Finding)
    requires SlugsDistinct(fs) && f in fs && f.verdict.FIND?
    ensures var w, top, c := Run(fs, register, closedPage), Top(LinesOf(register)), Top(LinesOf(closedPage));
      RowOf(f) in w.rows <==> (f.slug !in c && f.slug !in top) || Remeasured(f, top, c)
  {
    var w, top, c := Run(fs, register, closedPage), Top(LinesOf(register)), Top(LinesOf(closedPage));
    hide Top, Pass, Named;
    PassRows(fs, top, c.Keys, Named(c));
    if RowOf(f) in w.rows {
      assert FromUnbooked(RowOf(f), fs, top, c.Keys, Named(c));
      var g :| g in fs && RowOf(f) == RowOf(g) && g.verdict.FIND? && !FateOf(g, top, c.Keys, Named(c)).Booked?;
      var j :| 0 <= j < |fs| && fs[j] == f;
      var k :| 0 <= k < |fs| && fs[k] == g;
    }
  }

  function Remeasures(fs: seq<Finding>, top: map<string, Line>, c: map<string, Line>): nat {
    if fs == [] then 0
    else Remeasures(fs[..|fs| - 1], top, c) + if Remeasured(fs[|fs| - 1], top, c) then 1 else 0
  }

  lemma {:induction false} RemeasuresFront(fs: seq<Finding>, top: map<string, Line>, c: map<string, Line>)
    requires fs != []
    ensures Remeasures(fs, top, c) == (if Remeasured(fs[0], top, c) then 1 else 0) + Remeasures(fs[1..], top, c)
  {
    if |fs| > 1 {
      RemeasuresFront(fs[..|fs| - 1], top, c);
      assert fs[..|fs| - 1][1..] == fs[1..][..|fs| - 2];
    }
  }

  lemma {:induction false} PassReplaced(fs: seq<Finding>, onPage: map<string, Line>, closed: set<string>,
                                        named: set<string>, c: map<string, Line>)
    requires SlugsDistinct(fs) && forall f :: f in fs ==> (f.slug in closed <==> f.slug in c)
    ensures Pass(fs, onPage, closed, named).replaced == Remeasures(fs, onPage, c)
    decreases |fs|
  {
    if fs != [] {
      hide Pass;
      var next := ClosedNext(fs[0], onPage, closed, named);
      PassAt(fs, 0, onPage, closed, named);
      assert fs[0..] == fs && fs[0] in fs;
      OthersDiffer(fs);
      PassReplaced(fs[1..], onPage, next.0, next.1, c);
      RemeasuresFront(fs, onPage, c);
    }
  }

  /** The run counts as replaced the measurements that measure their row again; what else it writes is new, and every
      other finding is counted as booked. */
  lemma CountedExactly(fs: seq<Finding>, register: Page, closedPage: Page)
    requires SlugsDistinct(fs)
    ensures var w := Run(fs, register, closedPage);
      && w.replaced == Remeasures(fs, Top(LinesOf(register)), Top(LinesOf(closedPage)))
      && w.new' == |w.rows| + |w.closed| - w.replaced && w.booked == |fs| - |w.rows| - |w.closed|
  {
    var top, c := Top(LinesOf(register)), Top(LinesOf(closedPage));
    hide Top, Pass, Named;
    PassReplaced(fs, top, c.Keys, Named(c), c);
    PassWrites(fs, top, c.Keys, Named(c));
  }

  /** The rows are those of the findings at these places, one after the other. */
  ghost predicate Places(rows: seq<Line>, fs: seq<Finding>, at: seq<nat>) {
    && |at| == |rows| && (forall k :: 0 <= k < |at| ==> at[k] < |fs| && rows[k] == RowOf(fs[at[k]]))
    && forall k, l :: 0 <= k < l < |at| ==> at[k] < at[l]
  }

  ghost predicate InOrder(rows: seq<Line>, fs: seq<Finding>) {
    exists at :: Places(rows, fs, at)
  }

  lemma InOrderMore(rows: seq<Line>, fs: seq<Finding>)
    requires fs != [] && InOrder(rows, fs[1..])
    ensures InOrder(rows, fs) && InOrder([RowOf(fs[0])] + rows, fs)
  {
    hide RowOf;
    var at :| Places(rows, fs[1..], at);
    var up := seq(|at|, k requires 0 <= k < |at| => at[k] + 1);
    assert Places(rows, fs, up) by { assert forall k :: 0 <= k < |at| ==> fs[1..][at[k]] == fs[up[k]]; }
    assert Places([RowOf(fs[0])] + rows, fs, [0] + up);
  }

  /** Both lists of rows are in the order of the findings. */
  lemma {:induction false} WrittenInOrder(fs: seq<Finding>, onPage: map<string, Line>, closed: set<string>,
                                          named: set<string>)
    ensures var w := Pass(fs, onPage, closed, named); InOrder(w.rows, fs) && InOrder(w.closed, fs)
    decreases |fs|
  {
    var w := Pass(fs, onPage, closed, named);
    if fs != [] {
      hide Pass, InOrder;
      var next := ClosedNext(fs[0], onPage, closed, named);
      var rest := Pass(fs[1..], onPage, next.0, next.1);
      PassAt(fs, 0, onPage, closed, named);
      assert fs[0..] == fs;
      WrittenInOrder(fs[1..], onPage, next.0, next.1);
      InOrderMore(rest.rows, fs);
      InOrderMore(rest.closed, fs);
    } else {
      assert Places(w.rows, fs, []) && Places(w.closed, fs, []);
    }
  }

  lemma {:induction false} NothingLeft(fs: seq<Finding>, onPage: map<string, Line>, closed: set<string>,
                                       named: set<string>)
    requires forall f :: f in fs ==> FateOf(f, onPage, closed, named).Booked?
    ensures Pass(fs, onPage, closed, named) == Writes([], [], 0, 0, |fs|)
    decreases |fs|
  {
    if fs != [] {
      assert fs[0] in fs && forall f :: f in fs[1..] ==> f in fs;
      NothingLeft(fs[1..], onPage, closed, named);
    }
  }

  /** A re-measured slug whose topmost row stands above the table. */
  ghost predicate Hidden(fs: seq<Finding>, register: Page, closedPage: Page, f: Finding) {
    var c := Top(LinesOf(closedPage));
    f in fs && f.slug in Top(register.head) && FateOf(f, Top(LinesOf(register)), c.Keys, Named(c)).Replace?
  }

  ghost predicate NoneHidden(fs: seq<Finding>, register: Page, closedPage: Page) {
    forall f :: !Hidden(fs, register, closedPage, f)
  }

  /** The closed page afterwards has its old slugs and the new ones, and names what they name. */
  lemma ClosedAfter(p: Page, rows: seq<Line>)
    requires NewRows(rows) && Slugs(rows) !! Top(LinesOf(p)).Keys
    ensures var c, c' := Top(LinesOf(p)), Top(LinesOf(Inserted(p, rows)));
      c'.Keys == c.Keys + Slugs(rows) && Named(c) + NamesOf(rows) <= Named(c')
  {
    hide Top, Inserted;
    var c, c' := Top(LinesOf(p)), Top(LinesOf(Inserted(p, rows)));
    forall s ensures s in c' <==> s in c || s in Slugs(rows) {
      if s in Slugs(rows) {
        var i :| 0 <= i < |rows| && rows[i].Row? && rows[i].slug == s;
        WrittenOnTop(p, rows, i);
      } else {
        OthersStay(p, rows, s);
      }
    }
    forall a | a in Named(c) ensures a in Named(c') {
      var s :| s in c && c[s].Row? && a in c[s].names;
      OthersStay(p, rows, s);
      assert s in c' && c'[s].Row? && a in c'[s].names;
    }
    forall a | a in NamesOf(rows) ensures a in Named(c') {
      var i :| 0 <= i < |rows| && rows[i].Row? && a in rows[i].names;
      WrittenOnTop(p, rows, i);
      var s := rows[i].slug;
      assert s in Slugs(rows) && c'[s] == rows[i];
      assert s in c' && c'[s].Row? && a in c'[s].names;
    }
  }

  /** The register afterwards shows every row written, when none is hidden. */
  lemma RegisterAfter(fs: seq<Finding>, register: Page, closedPage: Page, r: Line)
    requires SlugsDistinct(fs) && NoneHidden(fs, register, closedPage) && r in Run(fs, register, closedPage).rows
    ensures r.Row? && Settles(Top(LinesOf(Inserted(register, Run(fs, register, closedPage).rows))), r)
  {
    hide Top, Pass, FateOf, Inserted, Named;
    var c := Top(LinesOf(closedPage));
    var w, top := Run(fs, register, closedPage), Top(LinesOf(register));
    PassFates(fs, top, c.Keys, Named(c));
    PassWrites(fs, top, c.Keys, Named(c));
    assert FromUnbooked(r, fs, top, c.Keys, Named(c));
    var f :| f in fs && r == RowOf(f) && f.verdict.FIND? && !FateOf(f, top, c.Keys, Named(c)).Booked?;
    var i :| 0 <= i < |w.rows| && w.rows[i] == r;
    WrittenOnTop(register, w.rows, i);
    NewIsOffPage(f, top, c.Keys, Named(c));
    assert !Hidden(fs, register, closedPage, f);
  }

  lemma NewIsOffPage(f: Finding, onPage: map<string, Line>, closed: set<string>, named: set<string>)
    ensures FateOf(f, onPage, closed, named).New? ==> f.slug !in onPage
  {
  }

  ghost function Second(fs: seq<Finding>, register: Page, closedPage: Page): Writes {
    var w := Run(fs, register, closedPage);
    Run(fs, Inserted(register, w.rows), Inserted(closedPage, w.closed))
  }

  /** A second run of the same drain writes and counts nothing. */
  lemma SecondWritesNothing(fs: seq<Finding>, register: Page, closedPage: Page)
    requires SlugsDistinct(fs) && NoneHidden(fs, register, closedPage)
    ensures Second(fs, register, closedPage) == Writes([], [], 0, 0, |fs|)
  {
    hide Top, Pass, FateOf, Inserted, Named, NoneHidden, Slugs, NamesOf;
    var c, top := Top(LinesOf(closedPage)), Top(LinesOf(register));
    var w := Run(fs, register, closedPage);
    PassFates(fs, top, c.Keys, Named(c));
    PassWrites(fs, top, c.Keys, Named(c));
    ClosedAfter(closedPage, w.closed);
    var top', c' := Top(LinesOf(Inserted(register, w.rows))), Top(LinesOf(Inserted(closedPage, w.closed)));
    forall f | f in fs && f.slug in top && f.slug !in Slugs(w.rows)
      ensures f.slug in top' && top'[f.slug] == top[f.slug]
    {
      OthersStay(register, w.rows, f.slug);
    }
    forall r | r in w.rows && r.Row? ensures Settles(top', r) { RegisterAfter(fs, register, closedPage, r); }
    AllBooked(fs, top, c.Keys, Named(c), top', c'.Keys, Named(c'));
    NothingLeft(fs, top', c'.Keys, Named(c'));
  }

  /** A hidden row is replaced again by every run. */
  lemma HiddenAgain(fs: seq<Finding>, register: Page, closedPage: Page, f: Finding)
    requires SlugsDistinct(fs) && Hidden(fs, register, closedPage, f)
    ensures Second(fs, register, closedPage).replaced > 0
  {
    hide Top, Pass, Inserted, Named, Slugs, NamesOf;
    var c, top := Top(LinesOf(closedPage)), Top(LinesOf(register));
    var w := Run(fs, register, closedPage);
    PassFates(fs, top, c.Keys, Named(c));
    PassWrites(fs, top, c.Keys, Named(c));
    ClosedAfter(closedPage, w.closed);
    var top', c' := Top(LinesOf(Inserted(register, w.rows))), Top(LinesOf(Inserted(closedPage, w.closed)));
    var i :| 0 <= i < |w.rows| && w.rows[i] == RowOf(f);
    WrittenOnTop(register, w.rows, i);
    NotClosed(fs, w.closed, f);
    assert FateOf(f, top', c'.Keys, Named(c')).Replace?;
    PassFates(fs, top', c'.Keys, Named(c'));
  }

  lemma NotClosed(fs: seq<Finding>, rows: seq<Line>, f: Finding)
    requires SlugsDistinct(fs) && f in fs && f.verdict.FIND? && FromFindings(rows, fs, false)
    ensures f.slug !in Slugs(rows)
  {
    forall r | r in rows ensures r.Row? && r.slug != f.slug {
      var g :| g in fs && r == RowOf(g) && g.verdict.FIND? == false;
      var j :| 0 <= j < |fs| && fs[j] == f;
      var k :| 0 <= k < |fs| && fs[k] == g;
    }
  }

  /** Booking a drain twice is booking it once, exactly when no re-measured slug has its topmost row above
      the table. */
  lemma Idempotent(fs: seq<Finding>, register: Page, closedPage: Page)
    requires SlugsDistinct(fs)
    ensures NoneHidden(fs, register, closedPage) <==> Second(fs, register, closedPage) == Writes([], [], 0, 0, |fs|)
    ensures NoneHidden(fs, register, closedPage) <==> Second(fs, register, closedPage).replaced == 0
  {
    hide Second, Hidden;
    if NoneHidden(fs, register, closedPage) {
      SecondWritesNothing(fs, register, closedPage);
    } else {
      var f :| Hidden(fs, register, closedPage, f);
      HiddenAgain(fs, register, closedPage, f);
    }
  }

  // ------------------------------------------------------------------ the scribe

  class Scribe {
    var register: Page
    var closedPage: Page

    constructor (register: Page, closedPage: Page)
      ensures this.register == register && this.closedPage == closedPage
    {
      this.register, this.closedPage := register, closedPage;
    }

    /** Decide each finding against the pages as they were read, and what this run adds to the closed one. */
    method Decide(fs: seq<Finding>) returns (w: Writes)
      ensures w == Run(fs, register, closedPage)
    {
      var open := ReadSlugs(register);
      var closedRows := ReadSlugs(closedPage);
      var closed, named := closedRows.Keys, Named(closedRows);
      var rows, news: seq<Line> := [], [];
      var new', replaced, booked := 0, 0, 0;
      hide Pass, Top, Named, FateOf;
      for i := 0 to |fs|
        invariant Run(fs, register, closedPage) ==
                  Added(Writes(rows, news, new', replaced, booked), Pass(fs[i..], open, closed, named))
      {
        var f := fs[i];
        PassAt(fs, i, open, closed, named);
        var what := FateOf(f, open, closed, named);
        if what.Booked? {
          booked := booked + 1;
          continue;
        }
        if what.New? { new' := new' + 1; } else { replaced := replaced + 1; }
        if f.verdict.FIND? {
          rows := rows + [RowOf(f)];
        } else {
          closed, named := closed + {f.slug}, named + set a | a in f.names;
          news := news + [RowOf(f)];
        }
      }
      PassNone(fs, open, closed, named);
      w := Writes(rows, news, new', replaced, booked);
    }

    /** Book a drain into the pages; nothing outside their tables changes. */
    method Book(findings: seq<Finding>, dryRun: bool) returns (w: Writes, ghost fs: seq<Finding>)
      modifies this
      ensures Chosen(findings, fs) && w == Run(fs, old(register), old(closedPage))
      ensures dryRun ==> register == old(register) && closedPage == old(closedPage)
      ensures !dryRun ==>
        register == Inserted(old(register), w.rows) && closedPage == Inserted(old(closedPage), w.closed)
    {
      var each := OnePerSlug(findings);
      fs := each;
      w := Decide(each);
      if dryRun { return; }
      InsertNothing(register);
      InsertNothing(closedPage);
      var dropped;
      if w.rows != [] { register, dropped := Insert(register, w.rows); }
      if w.closed != [] { closedPage, dropped := Insert(closedPage, w.closed); }
    }

    /** The same drain booked twice: the pages are as after the first run if no re-measured row is hidden, and only
        then does the second replace nothing. */
    method BookTwice(findings: seq<Finding>) returns (first: Writes, second: Writes, ghost fs: seq<Finding>)
      modifies this
      ensures Chosen(findings, fs) && first == Run(fs, old(register), old(closedPage))
      ensures NoneHidden(fs, old(register), old(closedPage)) ==>
        && second == Writes([], [], 0, 0, |fs|)
        && register == Inserted(old(register), first.rows) && closedPage == Inserted(old(closedPage), first.closed)
      ensures NoneHidden(fs, old(register), old(closedPage)) <==> second.replaced == 0
    {
      hide Run, Inserted, NoneHidden;
      ghost var again;
      first, fs := Book(findings, false);
      second, again := Book(findings, false);
      ChosenUnique(findings, fs, again);
      ChosenDistinct(findings, fs);
      Idempotent(fs, old(register), old(closedPage));
      InsertNothing(Inserted(old(register), first.rows));
      InsertNothing(Inserted(old(closedPage), first.closed));
    }
  }

  lemma ChosenDistinct(findings: seq<Finding>, fs: seq<Finding>)
    requires Chosen(findings, fs)
    ensures SlugsDistinct(fs)
  {
  }

  function Added(a: Writes, b: Writes): Writes {
    Writes(a.rows + b.rows, a.closed + b.closed, a.new' + b.new', a.replaced + b.replaced, a.booked + b.booked)
  }

  lemma PassNone(fs: seq<Finding>, onPage: map<string, Line>, closed: set<string>, named: set<string>)
    ensures Pass(fs[|fs|..], onPage, closed, named) == Writes([], [], 0, 0, 0)
  {
  }

  lemma PassAt(fs: seq<Finding>, i: nat, onPage: map<string, Line>, closed: set<string>, named: set<string>)
    requires i < |fs|
    ensures var f, what := fs[i], FateOf(fs[i], onPage, closed, named);
      var more := !f.verdict.FIND? && what.New?;
      var rest := Pass(fs[i + 1..], onPage, if more then closed + {f.slug} else closed,
                       if more then named + (set a | a in f.names) else named);
      Pass(fs[i..], onPage, closed, named) ==
        (if what.Booked? then rest.(booked := rest.booked + 1)
         else if what.Replace? then rest.(rows := [RowOf(f)] + rest.rows, replaced := rest.replaced + 1)
         else if more then rest.(closed := [RowOf(f)] + rest.closed, new' := rest.new' + 1)
         else rest.(rows := [RowOf(f)] + rest.rows, new' := rest.new' + 1))
    ensures FateOf(fs[i], onPage, closed, named).Replace? ==> fs[i].verdict.FIND?
  {
    assert fs[i..][1..] == fs[i + 1..] && fs[i..][0] == fs[i];
  }

  lemma {:induction false} KeepsAll(table: seq<Line>)
    ensures Kept(table, {}) == table
  {
    if table != [] { KeepsAll(table[1..]); }
  }

  lemma InsertNothing(p: Page)
    ensures Inserted(p, []) == p
  {
    KeepsAll(p.table);
    assert Slugs([]) == {};
    assert [] + p.table == p.table;
  }
}
