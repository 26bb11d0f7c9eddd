/** The bank's trigger: what a check reports, what a stamp remembers, and why no arrival is lost. */
module BankTrigger {
  import opened Strings

  /** The globs the bank's journal step reads. */
  function Fold(): seq<string> {
    [
      "data/raw/usenet/usenet_dated_*.jsonl.gz", "data/raw/usenet/usenet_candidates_*.jsonl.gz",
      "data/raw/cdx/*.jsonl.gz.part", "data/raw/cdx/cdx_*.jsonl.gz", "data/raw/cdx_suffix/*.jsonl.gz",
      "data/raw/usenet_*_items/*.jsonl.gz", "data/raw/usenet_*_items/*.jsonl",
      "data/raw/usenet_header_items/*/*.jsonl.gz", "data/raw/maillists_items/*.jsonl.gz",
      "data/raw/maillists_items/*.jsonl", "data/raw/enron_items/*.jsonl.gz", "data/raw/enron_items/*.jsonl",
      "data/raw/extended/*/*.jsonl*"
    ]
  }

  /** The globs the bank's own steps write. */
  const BANK_WRITES: set<string> := {"data/raw/cdx/*.jsonl.gz.part", "data/raw/cdx/cdx_*.jsonl.gz"}

  const CHECK_TAIL := 40

  // ------------------------------------------------------------------ digests

  datatype Stat = Stat(size: nat, mtime: nat)

  datatype Digest = Digest(count: nat, size: nat, newest: nat)

  function DigestOf(files: seq<Stat>): Digest {
    if files == [] then Digest(0, 0, 0)
    else
      var d, f := DigestOf(files[..|files| - 1]), files[|files| - 1];
      Digest(d.count + 1, d.size + f.size, if f.mtime > d.newest then f.mtime else d.newest)
  }

  /** The same files, grown or not, and perhaps more. */
  ghost predicate More(files: seq<Stat>, files': seq<Stat>) {
    && |files| <= |files'|
    && forall i :: 0 <= i < |files| ==> files[i].size <= files'[i].size && files[i].mtime <= files'[i].mtime
  }

  /** A file landed, or one grew. */
  ghost predicate Arrived(files: seq<Stat>, files': seq<Stat>) {
    More(files, files') && (|files| < |files'| || exists i :: 0 <= i < |files| && files[i].size < files'[i].size)
  }

  lemma {:induction false} DigestMore(files: seq<Stat>, files': seq<Stat>)
    requires More(files, files')
    ensures var d, d' := DigestOf(files), DigestOf(files');
      d.count == |files| && d'.count == |files'| && d.size <= d'.size && d.newest <= d'.newest
    decreases |files'|
  {
    if |files| < |files'| {
      DigestMore(files, files'[..|files'| - 1]);
    } else if files != [] {
      DigestMore(files[..|files| - 1], files'[..|files'| - 1]);
    }
  }

  lemma {:induction false} GrownSize(files: seq<Stat>, files': seq<Stat>, i: nat)
    requires More(files, files') && |files| == |files'| && i < |files| && files[i].size < files'[i].size
    ensures DigestOf(files).size < DigestOf(files').size
    decreases |files|
  {
    var n := |files| - 1;
    if i == n {
      DigestMore(files[..n], files'[..n]);
    } else {
      GrownSize(files[..n], files'[..n], i);
    }
  }

  /** An arrival always changes the digest. */
  lemma ArrivalMoves(files: seq<Stat>, files': seq<Stat>)
    requires Arrived(files, files')
    ensures DigestOf(files) != DigestOf(files')
  {
    DigestMore(files, files');
    if |files| == |files'| {
      var i :| 0 <= i < |files| && files[i].size < files'[i].size;
      GrownSize(files, files', i);
    }
  }

  lemma ArrivedThenMore(a: seq<Stat>, b: seq<Stat>, c: seq<Stat>, d: seq<Stat>)
    requires More(a, b) && Arrived(b, c) && More(c, d)
    ensures Arrived(a, d)
  {
    if |a| == |d| {
      var i :| 0 <= i < |b| && b[i].size < c[i].size;
      assert a[i].size < d[i].size;
    }
  }

  // ------------------------------------------------------------------ the files and the checks

  /** What a check finds in the world; the clock in hours. */
  datatype Env = Env(finds: seq<string>, drained: seq<string>, approvals: Option<string>, marker: Option<string>,
                     fold: map<string, seq<Stat>>, retry: bool, now: real)

  datatype Stamp = Stamp(at: real, approvals: Option<string>, marker: Option<string>, fold: map<string, Digest>)

  datatype RedDoc = RedDoc(at: real, step: string, ingested: seq<string>, failed: seq<string>, check: seq<string>)

  datatype Files = Files(seen: map<string, Digest>, stamp: Option<Stamp>, red: Option<RedDoc>)

  datatype Reason = Find | Read | Approvals | Baseline | Retry | NoStamp
                  | Journals(glob: string, files: int, bytes: int)

  function FilesOf(env: Env, g: string): seq<Stat> {
    if g in env.fold then env.fold[g] else []
  }

  function Digests(env: Env): map<string, Digest> {
    map g | g in Fold() :: DigestOf(FilesOf(env, g))
  }

  /** The reasons that do not wait. */
  function Prompt(s: Option<Stamp>, env: Env): seq<Reason> {
    (if env.finds != [] then [Find] else [])
    + (if env.drained != [] then [Read] else [])
    + (if s.None? || env.approvals != s.value.approvals then [Approvals] else [])
    + (if s.None? || env.marker != s.value.marker then [Baseline] else [])
  }

  function Was(s: Stamp, g: string): Digest {
    if g in s.fold then s.fold[g] else Digest(0, 0, 0)
  }

  /** The first n globs that have moved since the stamp. */
  function MovedGlobs(s: Stamp, digest: map<string, Digest>, n: nat): seq<Reason>
    requires n <= |Fold()| && forall g :: g in Fold() ==> g in digest
  {
    if n == 0 then []
    else
      var g := Fold()[n - 1];
      MovedGlobs(s, digest, n - 1) + Move(g, Was(s, g), digest[g])
  }

  function Move(g: string, was: Digest, cur: Digest): seq<Reason> {
    if cur != was then [Journals(g, cur.count - was.count, cur.size - was.size)] else []
  }

  function Moved(s: Option<Stamp>, env: Env): seq<Reason> {
    (if env.retry then [Retry] else [])
    + (if s.None? then [NoStamp] else MovedGlobs(s.value, Digests(env), |Fold()|))
  }

  /** Moves alone wait until the last bank is old enough. */
  predicate Due(s: Option<Stamp>, env: Env, hours: real) {
    s.None? || env.now >= s.value.at + hours
  }

  function Reasons(s: Option<Stamp>, env: Env, hours: real): seq<Reason> {
    var prompt, moved := Prompt(s, env), Moved(s, env);
    if prompt != [] || Due(s, env, hours) then prompt + moved else []
  }

  function AfterCheck(f: Files, env: Env, findOnly: bool): Files {
    if findOnly || f.red.Some? then f else f.(seen := Digests(env))
  }

  /** The globs the bank does not write as the last check saw them, the others as they stand. */
  function StampFold(seen: map<string, Digest>, env: Env): map<string, Digest> {
    map g | g in Fold() :: if g in seen && g !in BANK_WRITES then seen[g] else DigestOf(FilesOf(env, g))
  }

  function AfterStamp(f: Files, env: Env): Files {
    f.(stamp := Some(Stamp(env.now, env.approvals, env.marker, StampFold(f.seen, env))))
  }

  lemma {:induction false} MovedGlobsIs(s: Stamp, digest: map<string, Digest>, n: nat, g: string)
    requires n <= |Fold()| && (forall g :: g in Fold() ==> g in digest) && g in Fold()
    ensures (exists r :: r in MovedGlobs(s, digest, n) && r.Journals? && r.glob == g) <==>
            g in Fold()[..n] && digest[g] != Was(s, g)
  {
    if n > 0 {
      MovedGlobsIs(s, digest, n - 1, g);
      assert Fold()[..n] == Fold()[..n - 1] + [Fold()[n - 1]];
      var rest := MovedGlobs(s, digest, n - 1);
      var last := Move(Fold()[n - 1], Was(s, Fold()[n - 1]), digest[Fold()[n - 1]]);
      assert MovedGlobs(s, digest, n) == rest + last;
      if r :| r in rest && r.Journals? && r.glob == g { assert r in rest + last; }
      if last != [] && Fold()[n - 1] == g { assert last[0] in rest + last; }
    }
  }

  /** A check names glob g as moved. */
  ghost predicate Names(f: Files, env: Env, g: string) {
    exists r :: r in Moved(f.stamp, env) && r.Journals? && r.glob == g
  }

  /** With a stamp, a check names exactly the globs whose digest is not the stamp's. */
  lemma NamesIs(f: Files, env: Env, g: string)
    requires f.stamp.Some? && g in Fold()
    ensures Names(f, env, g) <==> DigestOf(FilesOf(env, g)) != Was(f.stamp.value, g)
  {
    MovedGlobsIs(f.stamp.value, Digests(env), |Fold()|, g);
    assert Fold()[..|Fold()|] == Fold();
    var retry, globs := if env.retry then [Retry] else [], MovedGlobs(f.stamp.value, Digests(env), |Fold()|);
    assert Moved(f.stamp, env) == retry + globs;
    if r :| r in globs && r.Journals? && r.glob == g { assert r in retry + globs; }
  }

  /** The newest file's mtime is the digest's, and bytes and files add up. */
  lemma {:induction false} DigestExactly(files: seq<Stat>, more: seq<Stat>)
    ensures forall f :: f in files ==> f.mtime <= DigestOf(files).newest
    ensures DigestOf(files).newest == 0 || exists f :: f in files && f.mtime == DigestOf(files).newest
    ensures DigestOf(files + more).size == DigestOf(files).size + DigestOf(more).size
    ensures DigestOf(files + more).count == |files| + |more|
    ensures forall f :: DigestOf([f]) == Digest(1, f.size, f.mtime)
    decreases |more|, |files|
  {
    if more == [] {
      assert files + more == files;
      if files != [] {
        var front, last := files[..|files| - 1], files[|files| - 1];
        assert files == front + [last];
        DigestExactly(front, []);
        assert front + [] == front;
        assert last in files;
      }
    } else {
      DigestExactly(files, more[..|more| - 1]);
      assert (files + more)[..|files + more| - 1] == files + more[..|more| - 1];
    }
    forall f ensures DigestOf([f]) == Digest(1, f.size, f.mtime) { assert [f][..0] == []; }
  }

  /** Whether something happened that does not wait. */
  predicate Pressing(s: Option<Stamp>, env: Env) {
    || env.finds != [] || env.drained != [] || s.None?
    || env.approvals != s.value.approvals || env.marker != s.value.marker
  }

  /** Whether the approvals wait to be banked, no bank has run yet, or some glob is not as the stamp has it. */
  ghost predicate Waiting(s: Option<Stamp>, env: Env) {
    env.retry || s.None? || exists g :: g in Fold() && DiffersFrom(s.value, env, g)
  }

  /** The glob is not as the stamp has it; one that the stamp does not have was empty. */
  predicate DiffersFrom(s: Stamp, env: Env, g: string) {
    DigestOf(FilesOf(env, g)) != if g in s.fold then s.fold[g] else Digest(0, 0, 0)
  }

  lemma WaitingIsMoved(s: Option<Stamp>, env: Env)
    ensures Moved(s, env) != [] <==> Waiting(s, env)
  {
    hide Fold, DigestOf, FilesOf;
    if s.Some? {
      assert Fold()[..|Fold()|] == Fold();
      forall g | g in Fold()
        ensures (exists r :: r in MovedGlobs(s.value, Digests(env), |Fold()|) && r.Journals? && r.glob == g) <==>
                DigestOf(FilesOf(env, g)) != Was(s.value, g)
      {
        MovedGlobsIs(s.value, Digests(env), |Fold()|, g);
      }
      var rs := MovedGlobs(s.value, Digests(env), |Fold()|);
      MovedGlobsAre(s.value, Digests(env), |Fold()|);
      if rs != [] { assert rs[0] in rs; }
    }
  }

  lemma {:induction false} MovedGlobsAre(s: Stamp, digest: map<string, Digest>, n: nat)
    requires n <= |Fold()| && forall g :: g in Fold() ==> g in digest
    ensures forall r :: r in MovedGlobs(s, digest, n) ==> r.Journals? && r.glob in Fold()
  {
    hide Fold, DigestOf, Was;
    if n > 0 {
      MovedGlobsAre(s, digest, n - 1);
      var g := Fold()[n - 1];
      assert g in Fold();
      assert MovedGlobs(s, digest, n) == MovedGlobs(s, digest, n - 1) + Move(g, Was(s, g), digest[g]);
    }
  }

  /** The bank runs if and only if something does not wait, or something waits and the last bank is old enough. */
  lemma RunsExactly(s: Option<Stamp>, env: Env, hours: real)
    ensures Reasons(s, env, hours) != [] <==>
      Pressing(s, env) || (Waiting(s, env) && s.Some? && env.now - s.value.at >= hours)
  {
    WaitingIsMoved(s, env);
    hide Fold, Waiting, Moved;
  }

  /** A run names each thing that does not wait, and each thing that waits. */
  lemma ReasonsExactly(s: Option<Stamp>, env: Env, hours: real)
    requires Reasons(s, env, hours) != []
    ensures var rs := Reasons(s, env, hours);
      && (Find in rs <==> env.finds != []) && (Read in rs <==> env.drained != [])
      && (Approvals in rs <==> s.None? || env.approvals != s.value.approvals)
      && (Baseline in rs <==> s.None? || env.marker != s.value.marker)
      && (Retry in rs <==> env.retry) && (NoStamp in rs <==> s.None?)
  {
    var prompt, moved := Prompt(s, env), Moved(s, env);
    assert Reasons(s, env, hours) == prompt + moved;
    PromptIs(s, env);
    MovedIs(s, env);
    hide Fold, Prompt, Moved;
    assert forall r :: r in prompt + moved <==> r in prompt || r in moved;
  }

  lemma PromptIs(s: Option<Stamp>, env: Env)
    ensures var rs := Prompt(s, env);
      && (Find in rs <==> env.finds != []) && (Read in rs <==> env.drained != [])
      && (Approvals in rs <==> s.None? || env.approvals != s.value.approvals)
      && (Baseline in rs <==> s.None? || env.marker != s.value.marker)
      && Retry !in rs && NoStamp !in rs
  {
    var a, b := if env.finds != [] then [Find] else [], if env.drained != [] then [Read] else [];
    var c := if s.None? || env.approvals != s.value.approvals then [Approvals] else [];
    var d := if s.None? || env.marker != s.value.marker then [Baseline] else [];
    assert Prompt(s, env) == a + b + c + d;
    assert forall r :: r in a + b + c + d <==> r in a || r in b || r in c || r in d;
  }

  lemma MovedIs(s: Option<Stamp>, env: Env)
    ensures var rs := Moved(s, env);
      && Find !in rs && Read !in rs && Approvals !in rs && Baseline !in rs
      && (Retry in rs <==> env.retry) && (NoStamp in rs <==> s.None?)
  {
    hide Fold, DigestOf, FilesOf;
    var a := if env.retry then [Retry] else [];
    var b := if s.None? then [NoStamp] else MovedGlobs(s.value, Digests(env), |Fold()|);
    assert Moved(s, env) == a + b;
    if s.Some? { MovedGlobsAre(s.value, Digests(env), |Fold()|); }
    assert forall r :: r in a + b <==> r in a || r in b;
  }

  /** A named glob is reported with the files and the bytes it gained, which may be negative. */
  lemma {:induction false} MovesCounted(s: Stamp, digest: map<string, Digest>, n: nat, r: Reason)
    requires n <= |Fold()| && (forall g :: g in Fold() ==> g in digest) && r in MovedGlobs(s, digest, n)
    ensures r.Journals? && r.glob in Fold()
    ensures var was := if r.glob in s.fold then s.fold[r.glob] else Digest(0, 0, 0);
      r.files == digest[r.glob].count - was.count && r.bytes == digest[r.glob].size - was.size
  {
    hide Fold, DigestOf;
    assert n > 0;
    var g := Fold()[n - 1];
    assert g in Fold();
    assert MovedGlobs(s, digest, n) == MovedGlobs(s, digest, n - 1) + Move(g, Was(s, g), digest[g]);
    if r in MovedGlobs(s, digest, n - 1) { MovesCounted(s, digest, n - 1, r); }
  }

  /** The stamp has the two globs that the bank writes as they stand at the stamp, and every other as the last check
      saw it, if one did. */
  lemma StampExactly(f: Files, env: Env, g: string)
    requires g in Fold()
    ensures var stamp := AfterStamp(f, env).stamp;
      && stamp.Some? && g in stamp.value.fold && stamp.value.at == env.now
      && stamp.value.approvals == env.approvals && stamp.value.marker == env.marker
      && stamp.value.fold[g] ==
           if g == "data/raw/cdx/*.jsonl.gz.part" || g == "data/raw/cdx/cdx_*.jsonl.gz" || g !in f.seen
           then DigestOf(FilesOf(env, g)) else f.seen[g]
    ensures AfterStamp(f, env).seen == f.seen && AfterStamp(f, env).red == f.red
  {
    hide Fold, DigestOf, FilesOf;
  }

  // ------------------------------------------------------------------ the trigger

  class Trigger {
    const hours: real
    var seenFile: map<string, Digest>
    var stampFile: Option<Stamp>
    var redFile: Option<RedDoc>

    function State(): Files
      reads this
    {
      Files(seenFile, stampFile, redFile)
    }

    constructor (f: Files, hours: real)
      ensures State() == f && this.hours == hours
    {
      seenFile, stampFile, redFile, this.hours := f.seen, f.stamp, f.red, hours;
    }

    /** Count, bytes and newest mtime of each glob. */
    method FoldDigest(env: Env) returns (digest: map<string, Digest>)
      ensures digest == Digests(env)
    {
      hide Fold, FilesOf;
      digest := map[];
      for i := 0 to |Fold()|
        invariant digest == map g | g in Fold()[..i] :: DigestOf(FilesOf(env, g))
      {
        var files := FilesOf(env, Fold()[i]);
        var count: nat, size: nat, newest: nat := 0, 0, 0;
        for j := 0 to |files|
          invariant Digest(count, size, newest) == DigestOf(files[..j])
        {
          assert files[..j + 1][..j] == files[..j];
          count, size := count + 1, size + files[j].size;
          if files[j].mtime > newest { newest := files[j].mtime; }
        }
        assert files[..|files|] == files;
        assert Fold()[..i + 1] == Fold()[..i] + [Fold()[i]];
        digest := digest[Fold()[i] := Digest(count, size, newest)];
      }
      assert Fold()[..|Fold()|] == Fold();
    }

    /** What has moved since the stamp, glob by glob. */
    method Moves(env: Env, digest: map<string, Digest>) returns (moved: seq<Reason>)
      requires digest == Digests(env)
      ensures moved == Moved(stampFile, env)
    {
      hide Fold, FilesOf, DigestOf, Move;
      moved := if env.retry then [Retry] else [];
      if stampFile.None? { return moved + [NoStamp]; }
      ghost var retry := moved;
      assert retry + MovedGlobs(stampFile.value, digest, 0) == retry;
      var i := 0;
      while i < |Fold()|
        invariant 0 <= i <= |Fold()|
        invariant forall g :: g in Fold() ==> g in digest
        invariant moved == retry + MovedGlobs(stampFile.value, digest, i)
      {
        var g := Fold()[i];
        ghost var before := MovedGlobs(stampFile.value, digest, i);
        moved := moved + Move(g, Was(stampFile.value, g), digest[g]);
        i := i + 1;
        assert MovedGlobs(stampFile.value, digest, i) == before + Move(g, Was(stampFile.value, g), digest[g]);
      }
    }

    /** Whether the bank should run, and why. */
    method Check(env: Env, findOnly: bool) returns (go: bool, reasons: seq<Reason>)
      modifies this`seenFile
      ensures State() == AfterCheck(old(State()), env, findOnly)
      ensures go <==> reasons != []
      ensures reasons == if findOnly then (if env.finds != [] then [Find] else [])
                         else if old(redFile).Some? then [] else Reasons(old(stampFile), env, hours)
    {
      hide Fold, Moved, Digests;
      reasons := if env.finds != [] then [Find] else [];
      if findOnly { return reasons != [], reasons; }
      if redFile.Some? { return false, []; }
      if env.drained != [] { reasons := reasons + [Read]; }
      if stampFile.None? || env.approvals != stampFile.value.approvals { reasons := reasons + [Approvals]; }
      if stampFile.None? || env.marker != stampFile.value.marker { reasons := reasons + [Baseline]; }
      assert reasons == Prompt(stampFile, env);
      var digest := FoldDigest(env);
      seenFile := digest;
      var moved := Moves(env, digest);
      if moved != [] {
        if reasons != [] || stampFile.None? || env.now >= stampFile.value.at + hours {
          reasons := reasons + moved;
        } else {
          return false, [];
        }
      }
      go := reasons != [];
    }

    /** What the bank has seen. */
    method Stamped(env: Env)
      modifies this`stampFile
      ensures State() == AfterStamp(old(State()), env)
    {
      hide Fold;
      var now := FoldDigest(env);
      var fold := map g | g in now :: if g in seenFile && g !in BANK_WRITES then seenFile[g] else now[g];
      assert fold == StampFold(seenFile, env);
      stampFile := Some(Stamp(env.now, env.approvals, env.marker, fold));
    }

    /** Record a red bank with the last lines of its log. The stamp is left alone. */
    method Red(env: Env, step: string, ingested: seq<string>, failed: seq<string>, log: seq<string>)
      returns (doc: RedDoc)
      modifies this`redFile
      ensures State() == old(State()).(red := Some(doc))
      ensures doc == RedDoc(env.now, step, ingested, failed, doc.check)
      ensures |doc.check| <= 40 && |doc.check| <= |log| && doc.check == log[|log| - |doc.check|..]
      ensures |log| > 40 ==> |doc.check| == 40
      ensures |log| <= 40 ==> doc.check == log
    {
      doc := RedDoc(env.now, step, ingested, failed, if |log| <= CHECK_TAIL then log else log[|log| - CHECK_TAIL..]);
      redFile := Some(doc);
    }

    /** Take the red away, and nothing else. */
    method Clear() returns (doc: Option<RedDoc>)
      modifies this`redFile
      ensures State() == old(State()).(red := None) && doc == old(redFile)
    {
      doc, redFile := redFile, None;
    }
  }

  // ------------------------------------------------------------------ runs

  datatype State = State(env: Env, files: Files)

  /** The world changes, or one of the four commands runs. */
  datatype Step = World | Check(findOnly: bool) | Stamps | Reddens(doc: RedDoc) | Clears

  ghost predicate Grows(env: Env, env': Env) {
    forall g :: g in Fold() ==> More(FilesOf(env, g), FilesOf(env', g))
  }

  ghost predicate Next(s: State, step: Step, s': State) {
    match step
    case World => Grows(s.env, s'.env) && s'.files == s.files
    case Check(findOnly) => s' == s.(files := AfterCheck(s.files, s.env, findOnly))
    case Stamps => s' == s.(files := AfterStamp(s.files, s.env))
    case Reddens(doc) => s' == s.(files := s.files.(red := Some(doc)))
    case Clears => s' == s.(files := s.files.(red := None))
  }

  ghost predicate StepAt(states: seq<State>, steps: seq<Step>, i: nat)
    requires i < |steps| && |states| == |steps| + 1
  {
    Next(states[i], steps[i], states[i + 1])
  }

  ghost predicate Run(states: seq<State>, steps: seq<Step>) {
    |states| == |steps| + 1 && forall i: nat :: i < |steps| ==> StepAt(states, steps, i)
  }

  /** A check that measures: not of finds only, and with no red standing. */
  predicate Measures(s: State, step: Step) {
    step.Check? && !step.findOnly && s.files.red.None?
  }

  lemma {:induction false} GlobGrows(states: seq<State>, steps: seq<Step>, g: string, i: nat, j: nat)
    requires Run(states, steps) && i <= j < |states| && g in Fold()
    ensures More(FilesOf(states[i].env, g), FilesOf(states[j].env, g))
    decreases j - i
  {
    if i < j {
      GlobGrows(states, steps, g, i, j - 1);
      assert StepAt(states, steps, j - 1);
    }
  }

  lemma {:induction false} SeenStays(states: seq<State>, steps: seq<Step>, i: nat, j: nat)
    requires Run(states, steps) && i <= j < |states|
    requires forall k :: i <= k < j ==> !Measures(states[k], steps[k])
    ensures states[j].files.seen == states[i].files.seen
    decreases j - i
  {
    if i < j {
      SeenStays(states, steps, i, j - 1);
      assert StepAt(states, steps, j - 1);
    }
  }

  lemma {:induction false} StampStays(states: seq<State>, steps: seq<Step>, i: nat, j: nat)
    requires Run(states, steps) && i <= j < |states|
    requires forall k :: i <= k < j ==> !steps[k].Stamps?
    ensures states[j].files.stamp == states[i].files.stamp
    decreases j - i
  {
    if i < j {
      StampStays(states, steps, i, j - 1);
      assert StepAt(states, steps, j - 1);
    }
  }

  /** Step c is the last measuring check before stamp s, and s the last stamp before state n. */
  ghost predicate Banked(states: seq<State>, steps: seq<Step>, c: nat, s: nat, n: nat) {
    && Run(states, steps) && c < s < n < |states|
    && Measures(states[c], steps[c]) && steps[s].Stamps?
    && (forall k :: c < k < s ==> !Measures(states[k], steps[k]))
    && (forall k :: s < k < n ==> !steps[k].Stamps?)
  }

  /** A glob the bank does not write is named exactly when it is not as the stamp's check saw it. */
  lemma NamedSinceCheck(states: seq<State>, steps: seq<Step>, c: nat, s: nat, n: nat, g: string)
    requires Banked(states, steps, c, s, n) && g in Fold() && g !in BANK_WRITES
    ensures states[n].files.stamp.Some?
    ensures Names(states[n].files, states[n].env, g) <==>
      DigestOf(FilesOf(states[n].env, g)) != DigestOf(FilesOf(states[c].env, g))
  {
    hide Fold, Names, More, Grows;
    assert StepAt(states, steps, c) && StepAt(states, steps, s);
    SeenStays(states, steps, c + 1, s);
    StampStays(states, steps, s + 1, n);
    assert Was(states[n].files.stamp.value, g) == DigestOf(FilesOf(states[c].env, g));
    NamesIs(states[n].files, states[n].env, g);
  }

  /** No arrival is lost: what lands after the stamp's check is named by every later check until the next
      stamp. */
  lemma ArrivalNamed(states: seq<State>, steps: seq<Step>, c: nat, s: nat, n: nat, i: nat, g: string)
    requires Banked(states, steps, c, s, n) && g in Fold() && g !in BANK_WRITES
    requires c <= i < n && Arrived(FilesOf(states[i].env, g), FilesOf(states[i + 1].env, g))
    ensures Names(states[n].files, states[n].env, g)
  {
    GlobGrows(states, steps, g, c, i);
    GlobGrows(states, steps, g, i + 1, n);
    var at := k requires 0 <= k < |states| => FilesOf(states[k].env, g);
    ArrivedThenMore(at(c), at(i), at(i + 1), at(n));
    ArrivalMoves(at(c), at(n));
    NamedSinceCheck(states, steps, c, s, n, g);
  }

  /** A named glob makes the bank run once it is due, or at once beside any prompt reason. */
  lemma NamedRuns(f: Files, env: Env, g: string, hours: real)
    requires f.red.None? && Names(f, env, g)
    ensures Reasons(f.stamp, env, hours) != [] <==> Prompt(f.stamp, env) != [] || Due(f.stamp, env, hours)
    ensures Reasons(f.stamp, env, hours) != [] ==>
      exists r :: r in Reasons(f.stamp, env, hours) && r.Journals? && r.glob == g
  {
    var r :| r in Moved(f.stamp, env) && r.Journals? && r.glob == g;
    var prompt, moved := Prompt(f.stamp, env), Moved(f.stamp, env);
    assert r in prompt + moved;
  }

  // ------------------------------------------------------------------ a red bank

  /** A red from step r on, cleared at step c for the first time, and no stamp while it stands. */
  ghost predicate RedUntil(states: seq<State>, steps: seq<Step>, r: nat, c: nat) {
    && Run(states, steps) && r < c < |steps| && steps[r].Reddens? && steps[c].Clears?
    && forall k :: r < k < c ==> !steps[k].Clears? && !steps[k].Stamps?
  }

  lemma {:induction false} RedStands(states: seq<State>, steps: seq<Step>, r: nat, c: nat, k: nat)
    requires RedUntil(states, steps, r, c) && r < k <= c
    ensures states[k].files.red.Some?
  {
    assert StepAt(states, steps, k - 1);
    if k > r + 1 { RedStands(states, steps, r, c, k - 1); }
  }

  /** A red bank loses nothing: whatever was checked while it stood, once it is cleared the stamp and the seen digest
      are those of before, so the next check names what it would have named. */
  lemma RedLosesNothing(states: seq<State>, steps: seq<Step>, r: nat, c: nat, g: string)
    requires RedUntil(states, steps, r, c)
    ensures states[c + 1].files == states[r].files.(red := None)
    ensures Names(states[c + 1].files, states[c + 1].env, g) <==> Names(states[r].files, states[c + 1].env, g)
  {
    forall k | r <= k < c + 1 ensures !Measures(states[k], steps[k]) && !steps[k].Stamps? {
      if r < k { RedStands(states, steps, r, c, k); }
    }
    SeenStays(states, steps, r, c + 1);
    StampStays(states, steps, r, c + 1);
    assert StepAt(states, steps, c);
  }

  // ------------------------------------------------------------------ what can be lost

  /** A second check inside a bank: what landed after the first, perhaps after its fold, goes unnamed. */
  lemma SecondCheckHides(f: Files, env: Env, env': Env, g: string)
    requires f.red.None? && g in Fold() && g !in BANK_WRITES
    requires Arrived(FilesOf(env, g), FilesOf(env', g))
    ensures var after := AfterStamp(AfterCheck(AfterCheck(f, env, false), env', false), env');
      !Names(after, env', g)
    ensures Names(AfterStamp(AfterCheck(f, env, false), env'), env', g)
  {
    var once := AfterCheck(f, env, false);
    NamesIs(AfterStamp(AfterCheck(once, env', false), env'), env', g);
    ArrivalMoves(FilesOf(env, g), FilesOf(env', g));
    NamesIs(AfterStamp(once, env'), env', g);
  }

  /** The approvals page and the marker are stamped as they stand: a change between the check and the
      stamp is never a reason, and a change is a reason exactly when it comes after the stamp. */
  lemma ApprovalsStampedLate(f: Files, checked: Env, stamped: Env, later: Env)
    requires f.red.None?
    ensures var after := AfterStamp(AfterCheck(f, checked, false), stamped);
      && (Approvals in Prompt(after.stamp, later) <==> later.approvals != stamped.approvals)
      && (Baseline in Prompt(after.stamp, later) <==> later.marker != stamped.marker)
  {
    var after := AfterStamp(AfterCheck(f, checked, false), stamped);
    var a, b := if later.finds != [] then [Find] else [], if later.drained != [] then [Read] else [];
    var c := if later.approvals != stamped.approvals then [Approvals] else [];
    var d := if later.marker != stamped.marker then [Baseline] else [];
    assert Prompt(after.stamp, later) == a + b + c + d;
    assert c != [] ==> c[0] in a + b + c + d;
    assert d != [] ==> d[0] in a + b + c + d;
  }
}
