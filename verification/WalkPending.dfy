/** `pending.txt` as text: one owed subpage a line, and exactly which ones come back as they were written. */
module WalkPending {
  import opened Strings
  import opened Splitting
  import opened CdxIndex
  import S = WalkState
  import Y = WalkSystem

  // ------------------------------------------------------------------ numbers

  function Digit(d: nat): char
    requires d < 10
  {
    ['0', '1', '2', '3', '4', '5', '6', '7', '8', '9'][d]
  }

  /** `str` of a count. */
  function Text(n: nat): (r: string)
    ensures r != [] && forall c :: c in r ==> '0' <= c <= '9'
  {
    if n < 10 then [Digit(n)] else Text(n / 10) + [Digit(n % 10)]
  }

  /** `int` of a run of digits; it takes more forms, none of them written here. */
  function Number(s: string): Option<nat> {
    if s == [] || !('0' <= s[|s| - 1] <= '9') then None
    else
      var d := s[|s| - 1] as nat - '0' as nat;
      if |s| == 1 then Some(d)
      else
        match Number(s[..|s| - 1])
        case None => None
        case Some(n) => Some(n * 10 + d)
  }

  lemma {:induction false} NumberText(n: nat)
    ensures Number(Text(n)) == Some(n)
  {
    if n >= 10 {
      NumberText(n / 10);
      assert Text(n)[..|Text(n)| - 1] == Text(n / 10);
    }
  }

  // ------------------------------------------------------------------ words

  /** The characters `split` with no argument cuts at. */
  predicate Space(c: char) {
    var i := c as int;
    9 <= i <= 13 || 28 <= i <= 32 || i == 0x85 || i == 0xA0 || i == 0x1680 || 0x2000 <= i <= 0x200A
    || i == 0x2028 || i == 0x2029 || i == 0x202F || i == 0x205F || i == 0x3000
  }

  predicate Word(s: string) {
    s != [] && forall c :: c in s ==> !Space(c)
  }

  /** The leading run of characters that are no space. */
  function Lead(s: string): (n: nat)
    ensures n <= |s| && (forall c :: c in s[..n] ==> !Space(c)) && (n < |s| ==> Space(s[n]))
  {
    if s == [] || Space(s[0]) then 0
    else
      var n := Lead(s[1..]);
      assert s[..n + 1] == [s[0]] + s[1..][..n];
      n + 1
  }

  function Words(s: string): seq<string>
    decreases |s|
  {
    if s == [] then []
    else if Space(s[0]) then Words(s[1..])
    else [s[..Lead(s)]] + Words(s[Lead(s)..])
  }

  lemma LeadIs(w: string, rest: string)
    requires Word(w) && (rest == [] || Space(rest[0]))
    ensures Lead(w + rest) == |w|
  {
    var s, n := w + rest, Lead(w + rest);
    assert s[..|w|] == w;
    assert forall k :: 0 <= k < n ==> s[k] in s[..n];
    assert forall k :: 0 <= k < |w| ==> s[k] in w;
  }

  lemma {:induction false} WordsJoin(ws: seq<string>)
    requires forall w :: w in ws ==> Word(w)
    ensures Words(Join(ws, ' ')) == ws
  {
    if |ws| == 1 {
      assert ws[0] + [] == ws[0] && ws[0][..|ws[0]|] == ws[0];
      LeadIs(ws[0], []);
      assert ws == [ws[0]];
    } else if ws != [] {
      var rest := [' '] + Join(ws[1..], ' ');
      var s := ws[0] + rest;
      assert s == Join(ws, ' ');
      LeadIs(ws[0], rest);
      assert s[0] in ws[0];
      assert s[..|ws[0]|] == ws[0] && s[|ws[0]|..] == rest && rest[1..] == Join(ws[1..], ' ');
      WordsJoin(ws[1..]);
      assert ws == [ws[0]] + ws[1..];
    }
  }

  // ------------------------------------------------------------------ one line

  /** A pending subpage with its meta as the three texts the file carries. */
  datatype Entry = Entry(task: Task, meta: seq<string>)

  predicate Plain(t: Task) {
    t.page.Number? && Word(t.sfx) && Word(t.kind)
  }

  function KeyWords(t: Task): seq<string>
    requires t.page.Number?
  {
    [t.sfx, Text(t.size), Text(t.page.n), Text(t.first), Text(t.last)]
  }

  function Encode(e: Entry): string
    requires e.task.page.Number?
  {
    Join([Join(KeyWords(e.task), ' ') + " " + e.task.kind] + e.meta, '\t')
  }

  function Decode(line: string): Option<Entry> {
    var parts := Split(line, '\t');
    var ws := Words(parts[0]);
    if |ws| != 6 then None
    else
      match (Number(ws[1]), Number(ws[2]), Number(ws[3]), Number(ws[4]))
      case (Some(z), Some(p), Some(f), Some(la)) =>
        Some(Entry(Task(ws[0], z, Page.Number(p), f, la, ws[5]), parts[1..]))
      case _ => None
  }

  lemma Head(t: Task)
    requires Plain(t)
    ensures var head := Join(KeyWords(t), ' ') + " " + t.kind;
      && Words(head) == KeyWords(t) + [t.kind] && (forall c :: c in head ==> c == ' ' || !Space(c))
  {
    var ws := KeyWords(t) + [t.kind];
    forall w | w in ws ensures Word(w) {
    }
    JoinLast(KeyWords(t), t.kind);
    WordsJoin(ws);
    JoinChars(ws);
  }

  lemma {:induction false} JoinLast(ws: seq<string>, w: string)
    requires ws != []
    ensures Join(ws + [w], ' ') == Join(ws, ' ') + " " + w
  {
    if |ws| > 1 {
      assert (ws + [w])[1..] == ws[1..] + [w];
      JoinLast(ws[1..], w);
    } else {
      assert (ws + [w])[1..] == [w];
    }
  }

  lemma {:induction false} JoinChars(ws: seq<string>)
    requires forall w :: w in ws ==> Word(w)
    ensures forall c :: c in Join(ws, ' ') ==> c == ' ' || !Space(c)
  {
    if ws != [] {
      assert Word(ws[0]);
      JoinChars(ws[1..]);
    }
  }

  lemma NumberWords(t: Task)
    requires t.page.Number?
    ensures Number(Text(t.size)) == Some(t.size) && Number(Text(t.page.n)) == Some(t.page.n)
    ensures Number(Text(t.first)) == Some(t.first) && Number(Text(t.last)) == Some(t.last)
  {
    NumberText(t.size);
    NumberText(t.page.n);
    NumberText(t.first);
    NumberText(t.last);
  }

  /** What a line decodes to holds no tab, and no character the line does not. */
  lemma DecodeParts(line: string)
    ensures Decode(line).Some? ==> forall m :: m in Decode(line).value.meta ==>
              '\t' !in m && forall c :: c in m ==> c in line
  {
    var parts := Split(line, '\t');
    SplitChars(line, '\t');
    assert forall m :: m in parts[1..] ==> m in parts;
  }

  lemma {:induction false} SplitChars(s: string, sep: char)
    ensures forall p, c :: p in Split(s, sep) && c in p ==> c in s
    decreases |s|
  {
    var i := Find(s, sep);
    if i < |s| { SplitChars(s[i + 1..], sep); }
  }

  predicate TabFree(e: Entry) {
    forall m :: m in e.meta ==> '\t' !in m
  }

  /** A line decodes to what was encoded exactly when no part of the meta holds a tab. */
  lemma DecodeEncode(e: Entry)
    requires Plain(e.task)
    ensures Decode(Encode(e)) == Some(e) <==> TabFree(e)
  {
    var head := Join(KeyWords(e.task), ' ') + " " + e.task.kind;
    Head(e.task);
    DecodeParts(Encode(e));
    var ps := [head] + e.meta;
    assert ps[1..] == e.meta;
    if TabFree(e) {
      SplitJoin(ps, '\t');
      NumberWords(e.task);
      assert Words(head) == [e.task.sfx, Text(e.task.size), Text(e.task.page.n), Text(e.task.first),
                             Text(e.task.last), e.task.kind];
    }
  }

  // ------------------------------------------------------------------ keys

  function PageText(p: Page): string {
    match p
    case Number(n) => Text(n)
    case Question(d) => d
  }

  /** A key as `done.txt` and a meta's parent hold it. */
  function KeyText(k: Key): string {
    Join([k.sfx, Text(k.size), PageText(k.page), Text(k.first), Text(k.last)], ' ')
  }

  /** A suffix is one word, and a question's domain is one word and no number: it has a dot. */
  predicate PlainKey(k: Key) {
    Word(k.sfx) && (k.page.Question? ==> Word(k.page.domain) && Number(k.page.domain).None?)
  }

  /** Two keys are one text only when they are one key, so a done set of texts is a done set of keys. */
  lemma KeyTextInjective(a: Key, b: Key)
    requires PlainKey(a) && PlainKey(b)
    ensures KeyText(a) == KeyText(b) <==> a == b
  {
    KeyTextWords(a);
    KeyTextWords(b);
    NumberText(a.size);
    NumberText(b.size);
    NumberText(a.first);
    NumberText(b.first);
    NumberText(a.last);
    NumberText(b.last);
    if a.page.Number? { NumberText(a.page.n); }
    if b.page.Number? { NumberText(b.page.n); }
  }

  lemma KeyTextWords(k: Key)
    requires PlainKey(k)
    ensures Words(KeyText(k)) == [k.sfx, Text(k.size), PageText(k.page), Text(k.first), Text(k.last)]
  {
    WordsJoin([k.sfx, Text(k.size), PageText(k.page), Text(k.first), Text(k.last)]);
  }

  // ------------------------------------------------------------------ the file

  /** The characters `splitlines` ends a line at. */
  predicate Break(c: char) {
    var i := c as int;
    10 <= i <= 13 || 28 <= i <= 30 || i == 0x85 || i == 0x2028 || i == 0x2029
  }

  predicate BreakFree(s: string) {
    forall c :: c in s ==> !Break(c)
  }

  function ToBreak(s: string): (n: nat)
    ensures n <= |s| && BreakFree(s[..n]) && (n < |s| ==> Break(s[n]))
  {
    if s == [] || Break(s[0]) then 0
    else
      var n := ToBreak(s[1..]);
      assert s[..n + 1] == [s[0]] + s[1..][..n];
      n + 1
  }

  /** The lines of a text; a carriage return and a line feed together end one line. */
  function SplitLines(s: string): (r: seq<string>)
    ensures forall l :: l in r ==> BreakFree(l)
    decreases |s|
  {
    if s == [] then []
    else
      var n := ToBreak(s);
      if n == |s| then [s]
      else
        var two := s[n] == '\r' && n + 1 < |s| && s[n + 1] == '\n';
        [s[..n]] + SplitLines(s[if two then n + 2 else n + 1..])
  }

  function FileText(es: seq<Entry>): string
    requires forall e :: e in es ==> Plain(e.task)
  {
    if es == [] then ""
    else
      assert es[0] in es && Plain(es[0].task);
      Encode(es[0]) + "\n" + FileText(es[1..])
  }

  function DecodeAll(lines: seq<string>): Option<seq<Entry>> {
    if lines == [] then Some([])
    else
      match (Decode(lines[0]), DecodeAll(lines[1..]))
      case (Some(e), Some(es)) => Some([e] + es)
      case _ => None
  }

  function ReadFile(text: string): Option<seq<Entry>> {
    DecodeAll(SplitLines(text))
  }

  lemma EncodeBreaks(e: Entry)
    requires Plain(e.task) && forall m :: m in e.meta ==> BreakFree(m)
    ensures BreakFree(Encode(e))
  {
    Head(e.task);
    var head := Join(KeyWords(e.task), ' ') + " " + e.task.kind;
    forall c | c in head ensures !Break(c) {
    }
    JoinBreaks([head] + e.meta);
  }

  lemma {:induction false} JoinBreaks(ps: seq<string>)
    requires forall p :: p in ps ==> BreakFree(p)
    ensures BreakFree(Join(ps, '\t'))
  {
    if ps != [] {
      assert BreakFree(ps[0]);
      JoinBreaks(ps[1..]);
    }
  }

  lemma FirstLine(l: string, rest: string)
    requires BreakFree(l)
    ensures SplitLines(l + "\n" + rest) == [l] + SplitLines(rest)
  {
    var s := l + "\n" + rest;
    var n := ToBreak(s);
    assert s[|l|] == '\n' && s[..|l|] == l && s[|l| + 1..] == rest;
    assert forall k :: 0 <= k < n ==> s[k] in s[..n];
    assert forall k :: 0 <= k < |l| ==> s[k] in l;
    assert n == |l|;
  }

  ghost predicate Writable(e: Entry) {
    TabFree(e) && forall m :: m in e.meta ==> BreakFree(m)
  }

  lemma {:induction false} ReadBack(es: seq<Entry>)
    requires forall e :: e in es ==> Plain(e.task) && Writable(e)
    ensures ReadFile(FileText(es)) == Some(es)
  {
    if es != [] {
      EncodeBreaks(es[0]);
      DecodeEncode(es[0]);
      FirstLine(Encode(es[0]), FileText(es[1..]));
      ReadBack(es[1..]);
      assert ([Encode(es[0])] + SplitLines(FileText(es[1..])))[1..] == SplitLines(FileText(es[1..]));
      assert es == [es[0]] + es[1..];
    }
  }

  lemma {:induction false} DecodedWritable(lines: seq<string>)
    requires DecodeAll(lines).Some? && forall l :: l in lines ==> BreakFree(l)
    ensures forall e :: e in DecodeAll(lines).value ==> Writable(e)
  {
    if lines != [] {
      DecodeParts(lines[0]);
      assert BreakFree(lines[0]);
      DecodedWritable(lines[1..]);
    }
  }

  /** A restart reads back the pending subpages as they were saved exactly when no meta, the cut row's
      urlkey in practice, holds a tab or a line break. */
  lemma PendingRoundTrip(es: seq<Entry>)
    requires forall e :: e in es ==> Plain(e.task)
    ensures ReadFile(FileText(es)) == Some(es) <==> forall e :: e in es ==> Writable(e)
  {
    if forall e :: e in es ==> Writable(e) {
      ReadBack(es);
    }
    if ReadFile(FileText(es)).Some? {
      DecodedWritable(SplitLines(FileText(es)));
    }
  }

  // ------------------------------------------------------------------ the lane's own lines

  function RoleText(r: S.Role): string {
    match r
    case Cut => "cut"
    case Probe => "probe"
    case Rest => "rest"
  }

  function RoleOf(text: string): Option<S.Role> {
    if text == "cut" then Some(S.Cut) else if text == "probe" then Some(S.Probe)
    else if text == "rest" then Some(S.Rest) else None
  }

  /** A page's key from its text. */
  function KeyFrom(text: string): Option<Key> {
    var ws := Words(text);
    if |ws| != 5 then None
    else
      match (Number(ws[1]), Number(ws[2]), Number(ws[3]), Number(ws[4]))
      case (Some(z), Some(p), Some(f), Some(la)) => Some(Key(ws[0], z, Page.Number(p), f, la))
      case _ => None
  }

  function EntryOf(o: Y.Owed): Entry {
    Entry(o.task, [RoleText(o.meta.role), KeyText(o.meta.parent), o.meta.stop])
  }

  /** An owed subpage from its line's task and the three texts of its meta. */
  function OwedFrom(e: Entry): Option<Y.Owed> {
    if |e.meta| != 3 then None
    else
      match (RoleOf(e.meta[0]), KeyFrom(e.meta[1]))
      case (Some(role), Some(parent)) => Some(Y.Owed(e.task, S.Meta(role, parent, e.meta[2])))
      case _ => None
  }

  /** A subpage of one word's suffix and kind, below its own page. */
  predicate PlainOwed(o: Y.Owed) {
    Plain(o.task) && o.meta.parent == Parent(KeyOf(o.task))
  }

  predicate PlainStop(o: Y.Owed) {
    '\t' !in o.meta.stop && BreakFree(o.meta.stop)
  }

  lemma KeyBack(k: Key)
    requires Word(k.sfx) && k.page.Number?
    ensures KeyFrom(KeyText(k)) == Some(k)
    ensures forall c :: c in KeyText(k) ==> c == ' ' || !Space(c)
  {
    KeyTextWords(k);
    NumberText(k.size);
    NumberText(k.page.n);
    NumberText(k.first);
    NumberText(k.last);
    JoinChars([k.sfx, Text(k.size), PageText(k.page), Text(k.first), Text(k.last)]);
  }

  lemma OwedBack(o: Y.Owed)
    requires PlainOwed(o)
    ensures OwedFrom(EntryOf(o)) == Some(o)
    ensures Writable(EntryOf(o)) <==> PlainStop(o)
  {
    KeyBack(o.meta.parent);
    var e := EntryOf(o);
    assert e.meta[0] == RoleText(o.meta.role) && e.meta[1] == KeyText(o.meta.parent) && e.meta[2] == o.meta.stop;
    assert forall m :: m in e.meta ==> m == e.meta[0] || m == e.meta[1] || m == e.meta[2];
    assert '\t' !in e.meta[0] && BreakFree(e.meta[0]);
    assert '\t' !in e.meta[1] && BreakFree(e.meta[1]);
  }

  /** A slice's five words. */
  function Spelled(sfx: string, size: nat, page: nat, first: nat, last: nat): string {
    sfx + " " + Text(size) + " " + Text(page) + " " + Text(first) + " " + Text(last)
  }

  lemma FiveWords(a: string, b: string, c: string, d: string, e: string)
    ensures Join([a, b, c, d, e], ' ') == a + " " + b + " " + c + " " + d + " " + e
  {
    var ws := [a, b, c, d, e];
    assert ws[1..] == [b, c, d, e] && ws[1..][1..] == [c, d, e] && ws[1..][1..][1..] == [d, e]
      && ws[1..][1..][1..][1..] == [e];
    assert Join([d, e], ' ') == d + [' '] + e;
    assert Join([c, d, e], ' ') == c + [' '] + (d + [' '] + e);
    assert Join([b, c, d, e], ' ') == b + [' '] + (c + [' '] + (d + [' '] + e));
  }

  lemma FourParts(a: string, b: string, c: string, d: string)
    ensures Join([a, b, c, d], '\t') == a + "\t" + b + "\t" + c + "\t" + d
  {
    var ws := [a, b, c, d];
    assert ws[1..] == [b, c, d] && ws[1..][1..] == [c, d] && ws[1..][1..][1..] == [d];
    assert Join([c, d], '\t') == c + ['\t'] + d;
    assert Join([b, c, d], '\t') == b + ['\t'] + (c + ['\t'] + d);
  }

  /** A line of the file, letter by letter: the slice's five words and its kind, its role, its page's five words, ten
      times coarser, and the cut row's key. */
  lemma LineText(o: Y.Owed)
    requires PlainOwed(o)
    ensures var t := o.task;
      Encode(EntryOf(o)) == Spelled(t.sfx, t.size, t.page.n, t.first, t.last) + " " + t.kind
        + "\t" + (if o.meta.role.Cut? then "cut" else if o.meta.role.Probe? then "probe" else "rest")
        + "\t" + Spelled(t.sfx, t.size * 10, t.page.n / 10, t.first, t.last) + "\t" + o.meta.stop
  {
    var t, p := o.task, o.meta.parent;
    FiveWords(t.sfx, Text(t.size), Text(t.page.n), Text(t.first), Text(t.last));
    FiveWords(p.sfx, Text(p.size), Text(p.page.n), Text(p.first), Text(p.last));
    hide Join, Text;
    var head, e := Spelled(t.sfx, t.size, t.page.n, t.first, t.last) + " " + t.kind, EntryOf(o);
    assert [head] + e.meta == [head, e.meta[0], e.meta[1], e.meta[2]];
    FourParts(head, e.meta[0], e.meta[1], e.meta[2]);
  }

  function Entries(os: seq<Y.Owed>): seq<Entry> {
    seq(|os|, i requires 0 <= i < |os| => EntryOf(os[i]))
  }

  lemma EntriesPlain(os: seq<Y.Owed>)
    requires forall o :: o in os ==> PlainOwed(o)
    ensures forall e :: e in Entries(os) ==> Plain(e.task)
  {
    forall e | e in Entries(os) ensures Plain(e.task) {
      var i :| 0 <= i < |os| && Entries(os)[i] == e;
      assert PlainOwed(os[i]);
    }
  }

  function Owings(es: seq<Entry>): Option<seq<Y.Owed>> {
    if es == [] then Some([])
    else
      match (OwedFrom(es[0]), Owings(es[1..]))
      case (Some(o), Some(os)) => Some([o] + os)
      case _ => None
  }

  /** `pending.txt` of the lane, and what a new process reads from it. */
  function PendingText(os: seq<Y.Owed>): string
    requires forall o :: o in os ==> PlainOwed(o)
  {
    EntriesPlain(os);
    FileText(Entries(os))
  }

  function LoadText(text: string): Option<seq<Y.Owed>> {
    match ReadFile(text)
    case Some(es) => Owings(es)
    case None => None
  }

  lemma {:induction false} OwingsBack(os: seq<Y.Owed>)
    requires forall o :: o in os ==> PlainOwed(o)
    ensures Owings(Entries(os)) == Some(os)
  {
    hide OwedFrom, EntryOf, PlainOwed;
    if os != [] {
      assert os[0] in os;
      OwedBack(os[0]);
      OwingsBack(os[1..]);
      assert Entries(os)[0] == EntryOf(os[0]) && Entries(os)[1..] == Entries(os[1..]);
      assert os == [os[0]] + os[1..];
    }
  }

  lemma {:induction false} OwingsMetas(es: seq<Entry>)
    requires Owings(es).Some? && forall e :: e in es ==> Writable(e)
    ensures forall o :: o in Owings(es).value ==> PlainStop(o)
  {
    if es != [] {
      assert es[0] in es && Writable(es[0]);
      assert es[0].meta[2] in es[0].meta;
      OwingsMetas(es[1..]);
    }
  }

  /** The file reads back as the owed subpages it was written from, role, parent and stop, if and only if no cut
      row's urlkey holds a tab or a line break. */
  lemma OwedRoundTrip(os: seq<Y.Owed>)
    requires forall o :: o in os ==> PlainOwed(o)
    ensures LoadText(PendingText(os)) == Some(os) <==> forall o :: o in os ==> PlainStop(o)
  {
    var es := Entries(os);
    EntriesPlain(os);
    forall e | e in es ensures exists o :: o in os && e == EntryOf(o) {
      var i :| 0 <= i < |os| && es[i] == e;
      assert os[i] in os;
    }
    if forall o :: o in os ==> PlainStop(o) {
      forall e | e in es ensures Writable(e) {
        var o :| o in os && e == EntryOf(o);
        OwedBack(o);
      }
      ReadBack(es);
      OwingsBack(os);
    }
    if LoadText(PendingText(os)) == Some(os) {
      DecodedWritable(SplitLines(FileText(es)));
      OwingsMetas(ReadFile(FileText(es)).value);
    }
  }

  /** A new process from the text of the file and the booked keys. */
  function RestartText(text: string, done: set<Key>, plan: map<S.Unit, seq<Task>>): Option<S.Mem> {
    match LoadText(text)
    case Some(os) => Some(Y.Restart(Y.Disk(os, done), plan))
    case None => None
  }

  /** So the restart the lane is modelled with is the one the text gives. */
  lemma RestartFromText(d: Y.Disk, plan: map<S.Unit, seq<Task>>)
    requires forall o :: o in d.pending ==> PlainOwed(o) && PlainStop(o)
    ensures RestartText(PendingText(d.pending), d.done, plan) == Some(Y.Restart(d, plan))
  {
    OwedRoundTrip(d.pending);
  }
}
