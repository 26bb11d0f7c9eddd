/** Binary search over the bytes of a C-sorted line file. A byte is a character, compared by code. */
module SortedLines {
  import opened Strings
  import opened Splitting

  /** The lines of a file; a final newline ends the last line and starts none. */
  function FileLines(s: string): seq<string>
    decreases |s|
  {
    if s == [] then []
    else
      var i := Find(s, '\n');
      if i == |s| then [s] else [s[..i]] + FileLines(s[i + 1..])
  }

  ghost predicate CSorted(s: string) {
    forall i, j :: 0 <= i < j < |FileLines(s)| ==> !Less(FileLines(s)[j], FileLines(s)[i])
  }

  predicate IsStart(s: string, p: nat) {
    p < |s| && (p == 0 || s[p - 1] == '\n')
  }

  /** The line that starts at p, up to its newline or the end of the file. */
  function LineAt(s: string, p: nat): string
    requires p <= |s|
  {
    s[p..][..Find(s[p..], '\n')]
  }

  /** Which line a start begins. */
  function LineIndex(s: string, p: nat): nat
    requires p < |s|
    decreases |s|
  {
    var i := Find(s, '\n');
    if p <= i then 0 else 1 + LineIndex(s[i + 1..], p - i - 1)
  }

  lemma {:induction false} IndexedLine(s: string, p: nat)
    requires IsStart(s, p)
    ensures LineIndex(s, p) < |FileLines(s)| && FileLines(s)[LineIndex(s, p)] == LineAt(s, p)
    decreases |s|
  {
    hide Find;
    var i := Find(s, '\n');
    if p <= i {
      assert forall k :: 0 <= k < i ==> s[k] in s[..i];
      assert s[0..] == s && s[..|s|] == s;
    } else {
      assert IsStart(s[i + 1..], p - i - 1);
      IndexedLine(s[i + 1..], p - i - 1);
      assert s[i + 1..][p - i - 1..] == s[p..];
    }
  }

  lemma {:induction false} IndexGrows(s: string, p: nat, q: nat)
    requires IsStart(s, p) && IsStart(s, q) && p < q
    ensures LineIndex(s, p) < LineIndex(s, q)
    decreases |s|
  {
    hide Find;
    var i := Find(s, '\n');
    assert forall k :: 0 <= k < i ==> s[k] in s[..i];
    if p > i {
      IndexGrows(s[i + 1..], p - i - 1, q - i - 1);
    }
  }

  lemma FirstStarts(s: string)
    requires s != []
    ensures IsStart(s, 0) && LineAt(s, 0) == FileLines(s)[0]
  {
    assert s[0..] == s && s[..|s|] == s;
  }

  /** A start behind the first newline is a start of the rest. */
  lemma StartBehind(s: string, i: nat, q: nat)
    requires i == Find(s, '\n') < |s| && IsStart(s[i + 1..], q)
    ensures IsStart(s, q + i + 1) && LineAt(s, q + i + 1) == LineAt(s[i + 1..], q)
  {
    var rest := s[i + 1..];
    assert rest[q..] == s[q + i + 1..];
    assert q > 0 ==> rest[q - 1] == s[q + i];
  }

  lemma LinesCut(s: string)
    ensures var i := Find(s, '\n');
      s != [] ==> FileLines(s) == if i == |s| then [s] else [s[..i]] + FileLines(s[i + 1..])
  {
    hide Find;
  }

  lemma LinesBehind(s: string, k: nat)
    requires 0 < k < |FileLines(s)|
    ensures var i := Find(s, '\n');
      i < |s| && k - 1 < |FileLines(s[i + 1..])| && FileLines(s)[k] == FileLines(s[i + 1..])[k - 1]
  {
    LinesCut(s);
    NoLines();
    hide Find, FileLines;
    assert s != [];
  }

  lemma NoLines()
    ensures FileLines([]) == []
  {
  }

  ghost predicate StartsAs(s: string, p: nat, line: string) {
    IsStart(s, p) && LineAt(s, p) == line
  }

  lemma {:induction false} EveryLineStarts(s: string, k: nat)
    requires k < |FileLines(s)|
    ensures exists p: nat :: StartsAs(s, p, FileLines(s)[k])
    decreases |s|
  {
    if k == 0 {
      FirstStarts(s);
      hide FileLines;
      assert StartsAs(s, 0, FileLines(s)[0]);
    } else {
      LinesBehind(s, k);
      hide Find, LineAt, FileLines;
      var i := Find(s, '\n');
      var rest := s[i + 1..];
      EveryLineStarts(rest, k - 1);
      var q: nat :| StartsAs(rest, q, FileLines(rest)[k - 1]);
      StartBehind(s, i, q);
      assert StartsAs(s, q + i + 1, FileLines(s)[k]);
    }
  }

  lemma LinesAreStarts(s: string, key: string)
    ensures key in FileLines(s) <==> exists p: nat :: IsStart(s, p) && LineAt(s, p) == key
  {
    if key in FileLines(s) {
      var k :| 0 <= k < |FileLines(s)| && FileLines(s)[k] == key;
      EveryLineStarts(s, k);
      var p: nat :| StartsAs(s, p, key);
    }
    if p: nat :| IsStart(s, p) && LineAt(s, p) == key {
      IndexedLine(s, p);
    }
  }

  lemma StartsSorted(s: string, p: nat, q: nat)
    requires CSorted(s) && IsStart(s, p) && IsStart(s, q) && p <= q
    ensures !Less(LineAt(s, q), LineAt(s, p))
  {
    IndexedLine(s, p);
    IndexedLine(s, q);
    LessTotal(LineAt(s, p), LineAt(s, p));
    if p < q { IndexGrows(s, p, q); }
  }

  /** `rfind` of a newline before `hi`, plus one: where the line holding that byte starts. */
  function StartBefore(s: string, hi: nat): (p: nat)
    requires hi <= |s|
    ensures p <= hi && (p == 0 || s[p - 1] == '\n') && '\n' !in s[p..hi]
  {
    if hi == 0 || s[hi - 1] == '\n' then hi
    else
      var p := StartBefore(s, hi - 1);
      assert s[p..hi] == s[p..hi - 1] + [s[hi - 1]];
      p
  }

  /** No key equals a line that starts outside [lo, hi). */
  ghost predicate Within(s: string, key: string, lo: nat, hi: nat) {
    forall p: nat :: IsStart(s, p) && LineAt(s, p) == key ==> lo <= p < hi
  }

  /** A smaller line at `start`: the key starts after its newline, and nowhere if it has none. */
  lemma GoesRight(s: string, key: string, lo: nat, hi: nat, start: nat)
    requires CSorted(s) && Within(s, key, lo, hi) && IsStart(s, start) && Less(LineAt(s, start), key)
    ensures Within(s, key, start + |LineAt(s, start)| + 1, hi)
    ensures start + |LineAt(s, start)| == |s| ==> forall p: nat :: IsStart(s, p) ==> LineAt(s, p) != key
  {
    var end := start + |LineAt(s, start)|;
    forall p: nat | IsStart(s, p) && LineAt(s, p) == key ensures end + 1 <= p {
      if p <= start {
        StartsSorted(s, p, start);
      } else {
        assert forall k :: start <= k < end ==> s[k] in LineAt(s, start);
      }
    }
  }

  lemma GoesLeft(s: string, key: string, lo: nat, hi: nat, start: nat)
    requires CSorted(s) && Within(s, key, lo, hi) && IsStart(s, start)
    requires !Less(LineAt(s, start), key) && LineAt(s, start) != key
    ensures Within(s, key, lo, start)
  {
    LessTotal(LineAt(s, start), key);
    forall p: nat | IsStart(s, p) && LineAt(s, p) == key ensures p < start {
      if p >= start { StartsSorted(s, start, p); }
    }
  }

  /** Where the search goes from the line at `start`. */
  function Narrowed(s: string, key: string, lo: nat, hi: nat, start: nat): (nat, nat)
    requires start <= |s|
  {
    var end := start + |LineAt(s, start)|;
    if Less(LineAt(s, start), key) && end < |s| then (end + 1, hi) else (lo, start)
  }

  lemma Narrows(s: string, key: string, lo: nat, hi: nat, start: nat)
    requires CSorted(s) && Within(s, key, lo, hi) && IsStart(s, start) && LineAt(s, start) != key
    ensures var r := Narrowed(s, key, lo, hi, start); Within(s, key, r.0, r.1)
  {
    if Less(LineAt(s, start), key) {
      GoesRight(s, key, lo, hi, start);
    } else {
      GoesLeft(s, key, lo, hi, start);
    }
  }

  lemma MiddleStart(s: string, lo: nat, hi: nat)
    requires lo < hi <= |s| && (lo == 0 || s[lo - 1] == '\n')
    ensures var start := StartBefore(s, (lo + hi) / 2); lo <= start < hi && IsStart(s, start)
  {
    var mid := (lo + hi) / 2;
    var start := StartBefore(s, mid);
    assert forall k :: start <= k < mid ==> s[k] in s[start..mid];
  }

  lemma AllWithin(s: string, key: string)
    ensures Within(s, key, 0, |s|)
  {
  }

  lemma NoneWithin(s: string, key: string, lo: nat, hi: nat)
    requires Within(s, key, lo, hi) && hi <= lo
    ensures key !in FileLines(s)
  {
    LinesAreStarts(s, key);
  }

  /** Whether a line equals the key. Exact on a C-sorted file with or without a final newline; a true
      answer is right on any file. */
  method Contains(mm: string, key: string) returns (found: bool)
    ensures found ==> key in FileLines(mm)
    ensures CSorted(mm) ==> (found <==> key in FileLines(mm))
  {
    hide CSorted, FileLines, Less, Within;
    LinesAreStarts(mm, key);
    AllWithin(mm, key);
    var lo, hi := 0, |mm|;
    while lo < hi
      invariant 0 <= lo <= |mm| && 0 <= hi <= |mm|
      invariant lo == 0 || mm[lo - 1] == '\n'
      invariant CSorted(mm) ==> Within(mm, key, lo, hi)
      decreases hi - lo
    {
      MiddleStart(mm, lo, hi);
      var start := StartBefore(mm, (lo + hi) / 2);
      var end := start + Find(mm[start..], '\n');
      var line := mm[start..][..end - start];
      if line == key { return true; }
      assert line == LineAt(mm, start);
      if CSorted(mm) { Narrows(mm, key, lo, hi, start); }
      if Less(line, key) && end < |mm| { lo := end + 1; } else { hi := start; }
    }
    if CSorted(mm) { NoneWithin(mm, key, lo, hi); }
    found := false;
  }
}
