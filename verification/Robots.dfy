/** The robots evaluator: matching, grouping and the verdict, against RFC 9309. */
module Robots {
  import opened Strings

  // ------------------------------------------------------------------ matching

  /** The regular expression a pattern becomes: `*` any run but no newline, `$` the end or a last newline. */
  predicate Globs(body: string, path: string, anchored: bool)
    decreases |body| + |path|
  {
    if body == [] then !anchored || path == [] || path == "\n"
    else if body[0] == '*' then
      Globs(body[1..], path, anchored) || (path != [] && path[0] != '\n' && Globs(body, path[1..], anchored))
    else path != [] && path[0] == body[0] && Globs(body[1..], path[1..], anchored)
  }

  predicate Matches(pattern: string, path: string) {
    pattern != [] &&
    var anchored := pattern[|pattern| - 1] == '$';
    Globs(if anchored then pattern[..|pattern| - 1] else pattern, path, anchored)
  }

  function Stars(body: string): nat {
    if body == [] then 0 else Stars(body[1..]) + if body[0] == '*' then 1 else 0
  }

  /** The body with each `*` replaced by one run. */
  function Fill(body: string, runs: seq<string>): string
    requires |runs| == Stars(body)
  {
    if body == [] then []
    else if body[0] == '*' then runs[0] + Fill(body[1..], runs[1..])
    else [body[0]] + Fill(body[1..], runs)
  }

  ghost predicate FillMatches(body: string, runs: seq<string>, path: string, anchored: bool) {
    |runs| == Stars(body) && if anchored then Fill(body, runs) == path else Fill(body, runs) <= path
  }

  /** Section 2.2.3 of RFC 9309: some choice of runs makes the pattern a prefix of the path, or with `$`
      the whole path. */
  ghost predicate Designates(body: string, path: string, anchored: bool) {
    exists runs :: FillMatches(body, runs, path, anchored)
  }

  lemma {:induction false} GlobsIsFill(body: string, path: string, anchored: bool)
    requires '\n' !in path && Globs(body, path, anchored)
    ensures Designates(body, path, anchored)
    decreases |body| + |path|
  {
    if body == [] {
      assert FillMatches(body, [], path, anchored);
    } else if body[0] == '*' && Globs(body[1..], path, anchored) {
      GlobsIsFill(body[1..], path, anchored);
      var runs :| FillMatches(body[1..], runs, path, anchored);
      assert ([""] + runs)[1..] == runs && "" + Fill(body[1..], runs) == Fill(body[1..], runs);
      assert FillMatches(body, [""] + runs, path, anchored);
    } else {
      assert path == [path[0]] + path[1..];
      if body[0] == '*' {
        GlobsIsFill(body, path[1..], anchored);
        var runs :| FillMatches(body, runs, path[1..], anchored);
        Longer(body, runs, path, anchored);
      } else {
        GlobsIsFill(body[1..], path[1..], anchored);
        var runs :| FillMatches(body[1..], runs, path[1..], anchored);
        assert Fill(body, runs) == [path[0]] + Fill(body[1..], runs);
        assert FillMatches(body, runs, path, anchored);
      }
    }
  }

  /** A leading `*` may take one more character. */
  lemma Longer(body: string, runs: seq<string>, path: string, anchored: bool)
    requires body != [] && body[0] == '*' && path != [] && FillMatches(body, runs, path[1..], anchored)
    ensures Designates(body, path, anchored)
  {
    var more := [[path[0]] + runs[0]] + runs[1..];
    assert more[1..] == runs[1..];
    assert Fill(body, more) == [path[0]] + Fill(body, runs);
    assert path == [path[0]] + path[1..];
    assert FillMatches(body, more, path, anchored);
  }

  lemma {:induction false} FillGlobs(body: string, runs: seq<string>, path: string, anchored: bool)
    requires '\n' !in path && FillMatches(body, runs, path, anchored)
    ensures Globs(body, path, anchored)
    decreases |body| + |path|
  {
    if body != [] {
      var f := Fill(body, runs);
      if body[0] == '*' && runs[0] == [] {
        assert f == Fill(body[1..], runs[1..]);
        FillGlobs(body[1..], runs[1..], path, anchored);
      } else if body[0] == '*' {
        var less := [runs[0][1..]] + runs[1..];
        assert less[1..] == runs[1..];
        assert runs[0] == [runs[0][0]] + runs[0][1..];
        assert f == [runs[0][0]] + Fill(body, less);
        assert f[0] == path[0] && path[0] in path;
        assert f[1..] == Fill(body, less);
        FillGlobs(body, less, path[1..], anchored);
      } else {
        assert f[1..] == Fill(body[1..], runs) && f[0] == path[0];
        FillGlobs(body[1..], runs, path[1..], anchored);
      }
    }
  }

  /** The matcher is the standard's matching, on every path a url can have. */
  lemma MatchesExact(pattern: string, path: string)
    requires '\n' !in path
    ensures Matches(pattern, path) <==>
      pattern != [] &&
      var anchored := pattern[|pattern| - 1] == '$';
      Designates(if anchored then pattern[..|pattern| - 1] else pattern, path, anchored)
  {
    if pattern != [] {
      var anchored := pattern[|pattern| - 1] == '$';
      var body := if anchored then pattern[..|pattern| - 1] else pattern;
      if Globs(body, path, anchored) { GlobsIsFill(body, path, anchored); }
      if runs :| FillMatches(body, runs, path, anchored) { FillGlobs(body, runs, path, anchored); }
    }
  }

  // ------------------------------------------------------------------ groups

  datatype Field = Disallow | Allow | CrawlDelay

  datatype Rule = Rule(field: Field, value: string)

  /** A line of the file, read: an agent line, a rule line, and every other line dropped. */
  datatype Line = Agent(name: string) | Directive(rule: Rule)

  datatype Group = Group(agents: set<string>, rules: seq<Rule>)

  /** The groups from here on, in the middle of one. */
  function Build(lines: seq<Line>, agents: set<string>, rules: seq<Rule>): seq<Group> {
    if lines == [] then if agents != {} || rules != [] then [Group(agents, rules)] else []
    else
      match lines[0]
      case Agent(name) =>
        if rules != [] then [Group(agents, rules)] + Build(lines[1..], {name}, [])
        else Build(lines[1..], agents + {name}, [])
      case Directive(rule) => Build(lines[1..], agents, rules + [rule])
  }

  // ------------------------------------------------------------------ which agents govern which rule

  /** An agent line right after a rule line: a group starts here. */
  predicate Starts(lines: seq<Line>, q: nat) {
    0 < q < |lines| && lines[q].Agent? && lines[q - 1].Directive?
  }

  function Names(ls: seq<Line>): set<string> {
    set l | l in ls && l.Agent? :: l.name
  }

  function RulesIn(ls: seq<Line>): seq<Rule> {
    if ls == [] then []
    else RulesIn(ls[..|ls| - 1]) + if ls[|ls| - 1].Directive? then [ls[|ls| - 1].rule] else []
  }

  function GroupOf(ls: seq<Line>): Group {
    Group(Names(ls), RulesIn(ls))
  }

  /** The cuts from line a on: each line where a group starts, and no other. */
  ghost predicate CutsFrom(lines: seq<Line>, a: nat, cuts: seq<nat>) {
    && cuts != [] && cuts[0] == a && cuts[|cuts| - 1] == |lines|
    && (forall i, j :: 0 <= i < j < |cuts| ==> cuts[i] < cuts[j])
    && (forall q: nat :: a < q < |lines| ==> (q in cuts <==> Starts(lines, q)))
  }

  /** Group k has the names and the rules, in order, of the lines from cut k to the next. */
  ghost predicate GroupsAt(lines: seq<Line>, cuts: seq<nat>, groups: seq<Group>) {
    |cuts| == |groups| + 1 && forall k :: 0 <= k < |groups| ==> GroupAt(lines, cuts, groups, k)
  }

  ghost predicate GroupAt(lines: seq<Line>, cuts: seq<nat>, groups: seq<Group>, k: nat)
    requires |cuts| == |groups| + 1 && k < |groups|
  {
    cuts[k] <= cuts[k + 1] <= |lines| && groups[k] == GroupOf(lines[cuts[k]..cuts[k + 1]])
  }

  /** No group starts strictly inside. */
  ghost predicate Together(lines: seq<Line>, a: nat, i: nat) {
    forall q: nat :: a < q < i ==> !Starts(lines, q)
  }

  lemma TakeMore(lines: seq<Line>, a: nat, i: nat)
    requires a <= i < |lines|
    ensures lines[a..i + 1] == lines[a..i] + [lines[i]]
    ensures Names(lines[a..i + 1]) == Names(lines[a..i]) + if lines[i].Agent? then {lines[i].name} else {}
    ensures RulesIn(lines[a..i + 1]) == RulesIn(lines[a..i]) + if lines[i].Directive? then [lines[i].rule] else []
  {
    var ls := lines[a..i + 1];
    assert ls == lines[a..i] + [lines[i]] && ls[..|ls| - 1] == lines[a..i];
  }

  /** In lines together the names come first: a last agent line has no rule before it. */
  lemma {:induction false} NamesFirst(lines: seq<Line>, a: nat, i: nat)
    requires a < i <= |lines| && Together(lines, a, i)
    ensures RulesIn(lines[a..i]) == [] <==> lines[i - 1].Agent?
    ensures Names(lines[a..i]) != {} || RulesIn(lines[a..i]) != []
  {
    TakeMore(lines, a, i - 1);
    if a < i - 1 {
      NamesFirst(lines, a, i - 1);
      assert !Starts(lines, i - 1);
    } else {
      assert lines[a..i - 1] == [];
      assert lines[a..i] == [lines[a]] && lines[a] in lines[a..i];
    }
  }

  /** The groups from line a on, its group in progress up to line i. */
  function BuildFrom(lines: seq<Line>, a: nat, i: nat): seq<Group>
    requires a <= i <= |lines|
  {
    Build(lines[i..], Names(lines[a..i]), RulesIn(lines[a..i]))
  }

  lemma BuildLast(lines: seq<Line>, a: nat)
    requires a < |lines| && Together(lines, a, |lines|)
    ensures BuildFrom(lines, a, |lines|) == [GroupOf(lines[a..])]
  {
    NamesFirst(lines, a, |lines|);
    assert lines[a..|lines|] == lines[a..];
  }

  lemma BuildNext(lines: seq<Line>, a: nat, i: nat)
    requires a < i < |lines| && Together(lines, a, i) && Starts(lines, i)
    ensures BuildFrom(lines, a, i) == [GroupOf(lines[a..i])] + BuildFrom(lines, i, i + 1)
  {
    NamesFirst(lines, a, i);
    TakeMore(lines, i, i);
    NoLines();
    hide RulesIn, Names;
    assert lines[i..][1..] == lines[i + 1..] && lines[i..][0] == lines[i] && lines[i..i] == [];
    assert {} + {lines[i].name} == {lines[i].name};
  }

  lemma BuildMore(lines: seq<Line>, a: nat, i: nat)
    requires a < i < |lines| && Together(lines, a, i) && !Starts(lines, i)
    ensures BuildFrom(lines, a, i) == BuildFrom(lines, a, i + 1)
  {
    NamesFirst(lines, a, i);
    TakeMore(lines, a, i);
    hide RulesIn, Names;
    assert lines[i..][1..] == lines[i + 1..] && lines[i..][0] == lines[i];
    if lines[i].Agent? { assert Names(lines[a..i]) + {} == Names(lines[a..i]); }
    assert lines[i].Directive? ==> Names(lines[a..i]) + {} == Names(lines[a..i]);
    assert RulesIn(lines[a..i]) + [] == RulesIn(lines[a..i]);
  }

  lemma LastBlock(lines: seq<Line>, a: nat)
    requires a < |lines| && Together(lines, a, |lines|)
    ensures CutsFrom(lines, a, [a, |lines|]) && GroupsAt(lines, [a, |lines|], BuildFrom(lines, a, |lines|))
  {
    BuildLast(lines, a);
    hide BuildFrom, GroupOf;
    assert lines[a..|lines|] == lines[a..];
  }

  lemma {:induction false} BlocksFrom(lines: seq<Line>, a: nat, i: nat) returns (cuts: seq<nat>)
    requires a < i <= |lines| && Together(lines, a, i)
    ensures CutsFrom(lines, a, cuts) && GroupsAt(lines, cuts, BuildFrom(lines, a, i))
    decreases |lines| - i
  {
    hide BuildFrom, GroupOf, CutsFrom, GroupsAt;
    if i == |lines| {
      cuts := [a, i];
      LastBlock(lines, a);
    } else if Starts(lines, i) {
      var rest := BlocksFrom(lines, i, i + 1);
      BuildNext(lines, a, i);
      CutsMore(lines, a, i, rest);
      GroupsMore(lines, a, i, rest, BuildFrom(lines, i, i + 1));
      cuts := [a] + rest;
    } else {
      cuts := BlocksFrom(lines, a, i + 1);
      BuildMore(lines, a, i);
    }
  }

  lemma NoLines()
    ensures Names([]) == {} && RulesIn([]) == []
  {
  }

  lemma CutsMore(lines: seq<Line>, a: nat, i: nat, rest: seq<nat>)
    requires a < i < |lines| && Together(lines, a, i) && Starts(lines, i) && CutsFrom(lines, i, rest)
    ensures CutsFrom(lines, a, [a] + rest)
  {
    hide Starts;
    var cuts := [a] + rest;
    forall j | 0 <= j < |rest| ensures i <= rest[j] {
      assert j > 0 ==> rest[0] < rest[j];
    }
    forall q: nat | a < q < |lines| ensures q in cuts <==> Starts(lines, q) {
      assert q in cuts <==> q in rest;
      if q in rest { var j :| 0 <= j < |rest| && rest[j] == q; }
    }
  }

  lemma GroupsMore(lines: seq<Line>, a: nat, i: nat, rest: seq<nat>, later: seq<Group>)
    requires a < i < |lines| && GroupsAt(lines, rest, later) && CutsFrom(lines, i, rest)
    ensures GroupsAt(lines, [a] + rest, [GroupOf(lines[a..i])] + later)
  {
    hide GroupOf, Starts;
    var cuts, groups := [a] + rest, [GroupOf(lines[a..i])] + later;
    forall k | 0 <= k < |groups| ensures GroupAt(lines, cuts, groups, k) {
      if k > 0 {
        var l := k - 1;
        assert GroupAt(lines, rest, later, l);
      }
    }
  }

  lemma BuildFirst(lines: seq<Line>)
    requires lines != []
    ensures Build(lines, {}, []) == BuildFrom(lines, 0, 1)
  {
    TakeMore(lines, 0, 0);
    NoLines();
    hide RulesIn, Names;
    assert lines[0..0] == [];
    var none: set<string> := {};
    assert none + {} == none;
    if lines[0].Agent? { assert none + {lines[0].name} == {lines[0].name}; }
  }

  /** The groups of a file: one for each stretch of lines between two places where an agent line follows a rule. */
  lemma BlocksExact(lines: seq<Line>) returns (cuts: seq<nat>)
    ensures CutsFrom(lines, 0, cuts) && GroupsAt(lines, cuts, Build(lines, {}, []))
  {
    if lines == [] {
      cuts := [0];
    } else {
      BuildFirst(lines);
      hide Build, BuildFrom, CutsFrom, GroupsAt;
      cuts := BlocksFrom(lines, 0, 1);
    }
  }

  /** Consecutive agent lines open one group together; an agent line after a rule opens the next. */
  method Groups(lines: seq<Line>) returns (groups: seq<Group>, ghost cuts: seq<nat>)
    ensures groups == Build(lines, {}, [])
    ensures CutsFrom(lines, 0, cuts) && GroupsAt(lines, cuts, groups)
  {
    groups := [];
    var agents: set<string>, rules: seq<Rule> := {}, [];
    var i := 0;
    while i < |lines|
      invariant 0 <= i <= |lines|
      invariant groups + Build(lines[i..], agents, rules) == Build(lines, {}, [])
    {
      assert lines[i..][1..] == lines[i + 1..];
      match lines[i] {
        case Agent(name) =>
          if rules != [] {
            ghost var later := Build(lines[i + 1..], {name}, []);
            assert groups + [Group(agents, rules)] + later == groups + ([Group(agents, rules)] + later);
            groups := groups + [Group(agents, rules)];
            agents, rules := {}, [];
          }
          assert {} + {name} == {name};
          agents := agents + {name};
        case Directive(rule) => rules := rules + [rule];
      }
      i := i + 1;
    }
    if agents != {} || rules != [] {
      groups := groups + [Group(agents, rules)];
    }
    cuts := BlocksExact(lines);
  }

  /** A rule line stands after the agent line, and between them no agent line stands behind another rule. */
  predicate GovernsLine(lines: seq<Line>, i: nat, j: nat) {
    && i < j < |lines| && lines[i].Agent? && lines[j].Directive?
    && !exists a, b :: i < a < b < j && lines[a].Directive? && lines[b].Agent?
  }

  lemma {:induction false} PartedStarts(lines: seq<Line>, x: nat, y: nat)
    requires x < y < |lines| && lines[x].Directive? && lines[y].Agent?
    ensures exists q: nat :: x < q <= y && Starts(lines, q)
    decreases y - x
  {
    if lines[y - 1].Directive? {
      assert Starts(lines, y);
    } else {
      PartedStarts(lines, x, y - 1);
    }
  }

  lemma {:induction false} RulesInAre(ls: seq<Line>, r: Rule)
    ensures r in RulesIn(ls) <==> Directive(r) in ls
  {
    if ls != [] {
      RulesInAre(ls[..|ls| - 1], r);
      assert ls == ls[..|ls| - 1] + [ls[|ls| - 1]];
    }
  }

  lemma {:induction false} FindBlock(lines: seq<Line>, cuts: seq<nat>, n: nat, i: nat) returns (k: nat)
    requires CutsFrom(lines, 0, cuts) && 0 < n < |cuts| && i < cuts[n]
    ensures k < n && cuts[k] <= i < cuts[k + 1]
  {
    if n == 1 || cuts[n - 1] <= i { k := n - 1; } else { k := FindBlock(lines, cuts, n - 1, i); }
  }

  lemma NoneInside(lines: seq<Line>, cuts: seq<nat>, k: nat)
    requires CutsFrom(lines, 0, cuts) && k + 1 < |cuts|
    ensures cuts[k + 1] <= |lines| && Together(lines, cuts[k], cuts[k + 1])
  {
    assert k + 1 < |cuts| - 1 ==> cuts[k + 1] < cuts[|cuts| - 1];
    forall j | 0 <= j < |cuts| ensures cuts[j] <= cuts[k] || cuts[k + 1] <= cuts[j] {
      assert if j < k then cuts[j] < cuts[k] else j == k || j == k + 1 || cuts[k + 1] < cuts[j];
    }
  }

  /** Some group has the name and the rule. */
  ghost predicate HasBoth(groups: seq<Group>, name: string, rule: Rule) {
    exists g :: g in groups && name in g.agents && rule in g.rules
  }

  ghost predicate LineHasBoth(lines: seq<Line>, name: string, rule: Rule) {
    exists i: nat, j: nat :: GovernsLine(lines, i, j) && lines[i] == Agent(name) && lines[j] == Directive(rule)
  }

  lemma GroupIsLines(lines: seq<Line>, cuts: seq<nat>, k: nat, name: string, rule: Rule)
    requires CutsFrom(lines, 0, cuts) && k + 1 < |cuts| && cuts[k] <= cuts[k + 1] <= |lines|
    requires var g := GroupOf(lines[cuts[k]..cuts[k + 1]]); name in g.agents && rule in g.rules
    ensures LineHasBoth(lines, name, rule)
  {
    var a, b := cuts[k], cuts[k + 1];
    NoneInside(lines, cuts, k);
    RulesInAre(lines[a..b], rule);
    hide CutsFrom, RulesIn;
    var x :| 0 <= x < b - a && lines[a..b][x] == Agent(name);
    var y :| 0 <= y < b - a && lines[a..b][y] == Directive(rule);
    var i, j := a + x, a + y;
    if j < i { PartedStarts(lines, j, i); }
    forall c, d | i < c < d < j && lines[c].Directive? && lines[d].Agent? ensures false { PartedStarts(lines, c, d); }
    assert GovernsLine(lines, i, j);
  }

  lemma LinesAreGroup(lines: seq<Line>, cuts: seq<nat>, i: nat, j: nat) returns (k: nat)
    requires CutsFrom(lines, 0, cuts) && GovernsLine(lines, i, j)
    ensures k + 1 < |cuts| && cuts[k] <= i < j < cuts[k + 1]
  {
    k := FindBlock(lines, cuts, |cuts| - 1, i);
    var q := cuts[k + 1];
    assert k + 1 < |cuts| - 1 ==> q < cuts[|cuts| - 1];
    assert q in cuts;
    assert q < |lines| ==> Starts(lines, q);
    assert Starts(lines, q) ==> i < q - 1 && q != j;
  }

  /** The groups read from a file put a name over a rule exactly when some agent line of the name governs some line
      of the rule. */
  lemma GovernedBy(lines: seq<Line>, name: string, rule: Rule)
    ensures HasBoth(Build(lines, {}, []), name, rule) <==> LineHasBoth(lines, name, rule)
  {
    var groups := Build(lines, {}, []);
    var cuts := BlocksExact(lines);
    if HasBoth(groups, name, rule) {
      var g :| g in groups && name in g.agents && rule in g.rules;
      var k :| 0 <= k < |groups| && groups[k] == g;
      assert GroupAt(lines, cuts, groups, k);
      GroupIsLines(lines, cuts, k, name, rule);
    }
    if LineHasBoth(lines, name, rule) {
      var i: nat, j: nat :| GovernsLine(lines, i, j) && lines[i] == Agent(name) && lines[j] == Directive(rule);
      var k := LinesAreGroup(lines, cuts, i, j);
      assert GroupAt(lines, cuts, groups, k);
      var ls := lines[cuts[k]..cuts[k + 1]];
      assert ls[i - cuts[k]] == Agent(name) && ls[j - cuts[k]] == Directive(rule);
      RulesInAre(ls, rule);
      assert Agent(name) in ls;
    }
  }

  // ------------------------------------------------------------------ the verdict

  const OUR_ROBOT_NAMES: set<string> := {
    "internetdigitalark", "claudebot", "claude-user", "claude-code", "claude-searchbot", "claude-web",
    "anthropic-ai", "anthropic"
  }

  predicate Relevant(g: Group) {
    g.agents * OUR_ROBOT_NAMES != {} || "*" in g.agents
  }

  predicate Applies(r: Rule, path: string) {
    r.field != CrawlDelay && Matches(r.value, path)
  }

  /** Some disallow rule applies that is longer than every allow rule that applies. */
  ghost predicate Refuses(rules: seq<Rule>, path: string) {
    exists d :: d in rules && d.field.Disallow? && Applies(d, path) &&
      forall a :: a in rules && a.field.Allow? && Applies(a, path) ==> |a.value| < |d.value|
  }

  /** The delay a rule asks for, if it is one and its number can be read. */
  function DelayOf(r: Rule, number: string -> Option<real>): real {
    if r.field.CrawlDelay? && number(r.value).Some? then number(r.value).value else 0.0
  }

  function RuleDelays(rules: seq<Rule>, number: string -> Option<real>): seq<real> {
    seq(|rules|, i requires 0 <= i < |rules| => DelayOf(rules[i], number))
  }

  /** The delays asked of us, group after group. */
  function Delays(groups: seq<Group>, number: string -> Option<real>): seq<real> {
    if groups == [] then []
    else
      var g := groups[|groups| - 1];
      Delays(groups[..|groups| - 1], number) + if Relevant(g) then RuleDelays(g.rules, number) else []
  }

  /** The longest of the delays, and none when no one asks. */
  ghost predicate Longest(delays: seq<real>, delay: real) {
    delay >= 0.0 && (forall d :: d in delays ==> d <= delay) && (delay == 0.0 || delay in delays)
  }

  ghost predicate Refused(groups: seq<Group>, path: string) {
    exists g :: g in groups && Relevant(g) && Refuses(g.rules, path)
  }

  /** The longest rule that applies, an allow winning a tie. */
  method Best(rules: seq<Rule>, path: string) returns (best: Option<Rule>)
    ensures best.Some? && best.value.field.Disallow? <==> Refuses(rules, path)
  {
    best := None;
    var i := 0;
    while i < |rules|
      invariant 0 <= i <= |rules|
      invariant best.None? ==> forall r :: r in rules[..i] ==> !Applies(r, path)
      invariant best.Some? ==> best.value in rules[..i] && Applies(best.value, path)
      invariant best.Some? ==> forall r :: r in rules[..i] && Applies(r, path) ==>
        || |r.value| < |best.value.value|
        || (|r.value| == |best.value.value| && (r.field.Allow? ==> best.value.field.Allow?))
    {
      var r := rules[i];
      assert rules[..i + 1] == rules[..i] + [r];
      if !r.field.CrawlDelay? && !(r.field.Disallow? && r.value == "") && Matches(r.value, path) {
        if best.None? || |r.value| > |best.value.value|
           || (|r.value| == |best.value.value| && r.field.Allow? && best.value.field.Disallow?) {
          best := Some(r);
        }
      }
      i := i + 1;
    }
    assert rules[..i] == rules;
  }

  /** The verdict over every group that names us or everyone, and the longest crawl delay among them. */
  method Verdict(groups: seq<Group>, path: string, number: string -> Option<real>) returns (refused: bool, delay: real)
    ensures refused <==> Refused(groups, path)
    ensures Longest(Delays(groups, number), delay)
  {
    refused, delay := false, 0.0;
    var i := 0;
    while i < |groups|
      invariant 0 <= i <= |groups|
      invariant refused <==> Refused(groups[..i], path)
      invariant Longest(Delays(groups[..i], number), delay)
    {
      var g := groups[i];
      assert groups[..i + 1] == groups[..i] + [g];
      if Relevant(g) {
        var best := Best(g.rules, path);
        refused := refused || (best.Some? && best.value.field.Disallow?);
        delay := GroupDelay(Delays(groups[..i], number), g.rules, number, delay);
      }
      i := i + 1;
    }
    assert groups[..i] == groups;
  }

  lemma LongestNext(delays: seq<real>, delay: real, d: real)
    requires Longest(delays, delay)
    ensures Longest(delays + [d], if d > delay then d else delay)
  {
  }

  method GroupDelay(ghost before: seq<real>, rules: seq<Rule>, number: string -> Option<real>, delay0: real)
    returns (delay: real)
    requires Longest(before, delay0)
    ensures Longest(before + RuleDelays(rules, number), delay)
  {
    delay := delay0;
    assert before + RuleDelays([], number) == before;
    var i := 0;
    while i < |rules|
      invariant 0 <= i <= |rules|
      invariant Longest(before + RuleDelays(rules[..i], number), delay)
    {
      var r := rules[i];
      assert RuleDelays(rules[..i + 1], number) == RuleDelays(rules[..i], number) + [DelayOf(r, number)];
      LongestNext(before + RuleDelays(rules[..i], number), delay, DelayOf(r, number));
      assert before + RuleDelays(rules[..i + 1], number) ==
             before + RuleDelays(rules[..i], number) + [DelayOf(r, number)];
      if r.field.CrawlDelay? && number(r.value).Some? && number(r.value).value > delay {
        delay := number(r.value).value;
      }
      i := i + 1;
    }
    assert rules[..i] == rules;
  }

  // ------------------------------------------------------------------ the verdict, from names and rules

  /** One of the names that a record for us may carry. */
  predicate OurName(name: string) {
    || name == "internetdigitalark" || name == "claudebot" || name == "claude-user" || name == "claude-code"
    || name == "claude-searchbot" || name == "claude-web" || name == "anthropic-ai" || name == "anthropic"
  }

  ghost predicate ForUs(g: Group) {
    exists name :: name in g.agents && (OurName(name) || name == "*")
  }

  lemma OurNames(name: string)
    ensures name in OUR_ROBOT_NAMES <==> OurName(name)
  {
  }

  lemma RelevantExactly(g: Group)
    ensures Relevant(g) <==> ForUs(g)
  {
    hide OurName;
    if name :| name in g.agents && OurName(name) {
      OurNames(name);
      assert name in g.agents * OUR_ROBOT_NAMES;
    }
    if name :| name in g.agents * OUR_ROBOT_NAMES { OurNames(name); }
  }

  /** A disallow that is not empty matches the path, and no allow that does is as long. */
  ghost predicate Forbids(rules: seq<Rule>, path: string, d: Rule) {
    && d in rules && d.field.Disallow? && d.value != "" && Matches(d.value, path)
    && forall a :: a in rules && a.field.Allow? && Matches(a.value, path) ==> |a.value| < |d.value|
  }

  /** The path is refused if and only if some group that names us or everyone has a disallow that matches it and is
      longer than every allow of that group that does, whatever the other groups say. */
  lemma RefusedExactly(groups: seq<Group>, path: string)
    ensures Refused(groups, path) <==> exists g, d :: g in groups && ForUs(g) && Forbids(g.rules, path, d)
  {
    hide Matches, Relevant, ForUs;
    forall g | g in groups
      ensures Relevant(g) <==> ForUs(g)
      ensures Refuses(g.rules, path) <==> exists d :: Forbids(g.rules, path, d)
    {
      RelevantExactly(g);
      RefusesExactly(g.rules, path);
    }
    hide Refuses, Forbids;
  }

  lemma RefusesExactly(rules: seq<Rule>, path: string)
    ensures Refuses(rules, path) <==> exists d :: Forbids(rules, path, d)
  {
    EmptyMatchesNone(path);
    hide Matches;
    if Refuses(rules, path) {
      var d :| d in rules && d.field.Disallow? && Applies(d, path) &&
        forall a :: a in rules && a.field.Allow? && Applies(a, path) ==> |a.value| < |d.value|;
      assert Forbids(rules, path, d);
    }
    if d :| Forbids(rules, path, d) {
      assert Applies(d, path);
    }
  }

  lemma EmptyMatchesNone(path: string)
    ensures !Matches("", path)
  {
  }

  /** Some group for us or for everyone asks for this delay. */
  ghost predicate AsksDelay(groups: seq<Group>, number: string -> Option<real>, delay: real) {
    exists g, r :: g in groups && ForUs(g) && r in g.rules && r.field.CrawlDelay? && number(r.value) == Some(delay)
  }

  lemma {:induction false} AskedDelays(groups: seq<Group>, number: string -> Option<real>, d: real)
    ensures d in Delays(groups, number) ==> d == 0.0 || AsksDelay(groups, number, d)
    ensures AsksDelay(groups, number, d) ==> d in Delays(groups, number)
  {
    if groups != [] {
      var front, g := groups[..|groups| - 1], groups[|groups| - 1];
      assert groups == front + [g];
      AskedDelays(front, number, d);
      RelevantExactly(g);
      var ds := RuleDelays(g.rules, number);
      if i :| 0 <= i < |ds| && ds[i] == d { assert g.rules[i] in g.rules; }
      if r :| r in g.rules && r.field.CrawlDelay? && number(r.value) == Some(d) {
        var i :| 0 <= i < |g.rules| && g.rules[i] == r;
        assert ds[i] == d;
      }
    }
  }

  /** The delay that is kept is none, or one that a group for us or for everyone asks for, and no such group asks for a
      longer one. */
  lemma DelayExactly(groups: seq<Group>, number: string -> Option<real>, delay: real)
    ensures Longest(Delays(groups, number), delay) <==>
      && delay >= 0.0 && (delay == 0.0 || AsksDelay(groups, number, delay))
      && forall d :: AsksDelay(groups, number, d) ==> d <= delay
  {
    hide Delays, AsksDelay;
    forall d
      ensures d in Delays(groups, number) ==> d == 0.0 || AsksDelay(groups, number, d)
      ensures AsksDelay(groups, number, d) ==> d in Delays(groups, number)
    {
      AskedDelays(groups, number, d);
    }
  }

  // ------------------------------------------------------------------ order does not matter

  ghost predicate SameGroup(g: Group, h: Group) {
    g.agents == h.agents && multiset(g.rules) == multiset(h.rules)
  }

  ghost predicate HasLike(hs: seq<Group>, g: Group) {
    exists h :: h in hs && SameGroup(g, h)
  }

  ghost predicate Covers(hs: seq<Group>, gs: seq<Group>) {
    forall g :: g in gs ==> HasLike(hs, g)
  }

  /** The same groups in any order, each with its rules in any order. */
  ghost predicate SameRules(gs: seq<Group>, hs: seq<Group>) {
    Covers(hs, gs) && Covers(gs, hs)
  }

  lemma RefusesUnordered(rules: seq<Rule>, rules': seq<Rule>, path: string)
    requires multiset(rules) == multiset(rules')
    ensures Refuses(rules, path) == Refuses(rules', path)
  {
    assert forall r :: r in rules <==> r in multiset(rules);
    assert forall r :: r in rules' <==> r in multiset(rules');
  }

  lemma RefusedUnordered(gs: seq<Group>, hs: seq<Group>, path: string)
    requires Covers(hs, gs) && Refused(gs, path)
    ensures Refused(hs, path)
  {
    hide Refuses;
    var g :| g in gs && Relevant(g) && Refuses(g.rules, path);
    assert HasLike(hs, g);
    var h :| h in hs && SameGroup(g, h);
    RefusesUnordered(g.rules, h.rules, path);
  }

  lemma {:induction false} DelaysAre(groups: seq<Group>, number: string -> Option<real>, d: real)
    ensures d in Delays(groups, number) <==>
      exists g, r :: g in groups && Relevant(g) && r in g.rules && DelayOf(r, number) == d
  {
    if groups != [] {
      var front, g := groups[..|groups| - 1], groups[|groups| - 1];
      assert groups == front + [g];
      DelaysAre(front, number, d);
      if Relevant(g) {
        var ds := RuleDelays(g.rules, number);
        if d in ds {
          var i :| 0 <= i < |ds| && ds[i] == d;
          assert g.rules[i] in g.rules;
        }
        if r :| r in g.rules && DelayOf(r, number) == d {
          var i :| 0 <= i < |g.rules| && g.rules[i] == r;
          assert ds[i] == d;
        }
      }
    }
  }

  lemma DelayUnordered(gs: seq<Group>, hs: seq<Group>, number: string -> Option<real>, d: real)
    requires Covers(hs, gs) && d in Delays(gs, number)
    ensures d in Delays(hs, number)
  {
    hide Delays;
    DelaysAre(gs, number, d);
    DelaysAre(hs, number, d);
    var g, r :| g in gs && Relevant(g) && r in g.rules && DelayOf(r, number) == d;
    assert HasLike(hs, g);
    var h :| h in hs && SameGroup(g, h);
    assert r in multiset(g.rules) && r in multiset(h.rules);
  }

  /** The verdict and the delay do not depend on the order of groups, nor of rules in a group. */
  lemma VerdictUnordered(gs: seq<Group>, hs: seq<Group>, path: string, number: string -> Option<real>, d: real, e: real)
    requires SameRules(gs, hs)
    requires Longest(Delays(gs, number), d) && Longest(Delays(hs, number), e)
    ensures Refused(gs, path) == Refused(hs, path) && d == e
  {
    hide Refused, Delays, Covers;
    if Refused(gs, path) { RefusedUnordered(gs, hs, path); }
    if Refused(hs, path) { RefusedUnordered(hs, gs, path); }
    if d != 0.0 { DelayUnordered(gs, hs, number, d); }
    if e != 0.0 { DelayUnordered(hs, gs, number, e); }
  }

  // ------------------------------------------------------------------ never looser than the standard

  /** Section 2.2.1 of RFC 9309: the rules of every group that names the agent, merged, and only when no
      group does, those of the `*` groups. */
  ghost predicate Governs(groups: seq<Group>, name: string, r: Rule) {
    if exists g :: g in groups && name in g.agents
    then exists g :: g in groups && name in g.agents && r in g.rules
    else exists g :: g in groups && "*" in g.agents && r in g.rules
  }

  /** Section 2.2.2: of the governing rules that apply the longest decides, allow on a tie. */
  ghost predicate StandardAllows(groups: seq<Group>, name: string, path: string) {
    !exists d :: Governs(groups, name, d) && d.field.Disallow? && Applies(d, path) &&
      forall a :: Governs(groups, name, a) && a.field.Allow? && Applies(a, path) ==> |a.value| < |d.value|
  }

  /** What the evaluator allows, the standard allows to each of our names. */
  lemma NeverLooser(groups: seq<Group>, path: string, name: string)
    requires name in OUR_ROBOT_NAMES
    ensures !Refused(groups, path) ==> StandardAllows(groups, name, path)
  {
    if !StandardAllows(groups, name, path) {
      var d :| Governs(groups, name, d) && d.field.Disallow? && Applies(d, path) &&
        (forall a :: Governs(groups, name, a) && a.field.Allow? && Applies(a, path) ==> |a.value| < |d.value|);
      var named := exists g :: g in groups && name in g.agents;
      var g :| g in groups && d in g.rules && if named then name in g.agents else "*" in g.agents;
      forall a | a in g.rules && a.field.Allow? && Applies(a, path) ensures |a.value| < |d.value| {
        assert Governs(groups, name, a);
      }
      assert name in g.agents ==> name in g.agents * OUR_ROBOT_NAMES;
      assert Relevant(g) && Refuses(g.rules, path);
    }
  }

  /** Where only one group is for us, and names us, the evaluator is the standard's: the strictness lies in reading
      several. */
  lemma OneGroupExact(groups: seq<Group>, k: nat, path: string, name: string)
    requires k < |groups| && name in OUR_ROBOT_NAMES && name in groups[k].agents
    requires forall i :: 0 <= i < |groups| && i != k ==> !Relevant(groups[i])
    ensures Refused(groups, path) <==> !StandardAllows(groups, name, path)
  {
    var g := groups[k];
    assert name in g.agents * OUR_ROBOT_NAMES && g in groups;
    forall h | h in groups && name in h.agents ensures h == g {
      assert name in h.agents * OUR_ROBOT_NAMES;
    }
    assert forall r :: Governs(groups, name, r) <==> r in g.rules;
    hide Governs, Applies;
  }

  // ------------------------------------------------------------------ crawl delays and grouping

  /** The file as the standard groups it: section 2.2.4 of RFC 9309 lets no other record end a group. */
  function NoDelays(lines: seq<Line>): seq<Line> {
    if lines == [] then []
    else if lines[0].Directive? && lines[0].rule.field.CrawlDelay? then NoDelays(lines[1..])
    else [lines[0]] + NoDelays(lines[1..])
  }

  function StandardGroups(lines: seq<Line>): seq<Group> {
    Build(NoDelays(lines), {}, [])
  }

  function PathRules(rules: seq<Rule>): seq<Rule> {
    if rules == [] then []
    else PathRules(rules[..|rules| - 1]) + if rules[|rules| - 1].field.CrawlDelay? then [] else [rules[|rules| - 1]]
  }

  /** The groups without their crawl delays, and without the nameless leading group of nothing else. */
  function PathGroups(groups: seq<Group>): seq<Group> {
    if groups == [] then []
    else
      var g := Group(groups[0].agents, PathRules(groups[0].rules));
      (if g == Group({}, []) then [] else [g]) + PathGroups(groups[1..])
  }

  predicate Hollow(g: Group) {
    g.agents != {} && PathRules(g.rules) == []
  }

  /** A group that names agents is ended by the next agent line although crawl delays are its only rules. */
  ghost predicate SplitByDelay(groups: seq<Group>) {
    exists i :: 0 <= i < |groups| - 1 && Hollow(groups[i])
  }

  /** The standard's groups but the last have rules. */
  lemma {:induction false} StandardShape(lines: seq<Line>, agents: set<string>, rules: seq<Rule>)
    ensures var gs := Build(lines, agents, rules);
      && (forall i :: 0 <= i < |gs| - 1 ==> gs[i].rules != [])
      && (agents != {} || rules != [] ==> gs != [])
  {
    if lines != [] {
      match lines[0]
      case Agent(name) =>
        StandardShape(lines[1..], {name}, []);
        StandardShape(lines[1..], agents + {name}, []);
      case Directive(rule) => StandardShape(lines[1..], agents, rules + [rule]);
    }
  }

  lemma SplitBehind(g: Group, rest: seq<Group>)
    requires rest != []
    ensures SplitByDelay([g] + rest) <==> Hollow(g) || SplitByDelay(rest)
  {
    hide Hollow;
    var gs := [g] + rest;
    assert gs[0] == g;
    forall i | 0 <= i < |rest| - 1 && Hollow(rest[i]) ensures SplitByDelay(gs) {
      assert Hollow(gs[i + 1]);
    }
    forall i | 0 <= i < |gs| - 1 && Hollow(gs[i]) ensures Hollow(g) || SplitByDelay(rest) {
      if i > 0 { assert Hollow(rest[i - 1]); }
    }
  }

  /** A named group stays a group without its delays. */
  lemma {:induction false} PathGroupsNamed(lines: seq<Line>, agents: set<string>, rules: seq<Rule>)
    requires agents != {}
    ensures PathGroups(Build(lines, agents, rules)) != []
  {
    if lines != [] {
      match lines[0]
      case Agent(name) =>
        if rules == [] { PathGroupsNamed(lines[1..], agents + {name}, []); }
      case Directive(rule) => PathGroupsNamed(lines[1..], agents, rules + [rule]);
    }
  }

  /** Behind any group in progress, the code's groups are the standard's exactly when no delay splits one. */
  lemma {:induction false} BuildExact(lines: seq<Line>, agents: set<string>, rules: seq<Rule>)
    ensures PathGroups(Build(lines, agents, rules)) == Build(NoDelays(lines), agents, PathRules(rules))
            <==> !SplitByDelay(Build(lines, agents, rules))
    decreases |lines|
  {
    if lines == [] {
      assert PathGroups([]) == [];
    } else {
      match lines[0]
      case Directive(rule) =>
        BuildExact(lines[1..], agents, rules + [rule]);
        assert (rules + [rule])[..|rules|] == rules;
        assert PathRules(rules) + [] == PathRules(rules);
        if !rule.field.CrawlDelay? { assert NoDelays(lines)[1..] == NoDelays(lines[1..]); }
      case Agent(name) =>
        assert NoDelays(lines)[1..] == NoDelays(lines[1..]);
        if rules == [] {
          BuildExact(lines[1..], agents + {name}, []);
        } else {
          NextGroup(lines, agents, rules, name);
        }
    }
  }

  lemma {:induction false} NextGroup(lines: seq<Line>, agents: set<string>, rules: seq<Rule>, name: string)
    requires lines != [] && lines[0] == Agent(name) && rules != []
    ensures PathGroups(Build(lines, agents, rules)) == Build(NoDelays(lines), agents, PathRules(rules))
            <==> !SplitByDelay(Build(lines, agents, rules))
    decreases |lines|, 0
  {
    var later := Build(lines[1..], {name}, []);
    var standard := Build(NoDelays(lines), agents, PathRules(rules));
    assert NoDelays(lines)[1..] == NoDelays(lines[1..]);
    StandardShape(lines[1..], {name}, []);
    SplitBehind(Group(agents, rules), later);
    var g := Group(agents, PathRules(rules));
    assert ([Group(agents, rules)] + later)[1..] == later;
    if g.rules != [] {
      BuildExact(lines[1..], {name}, []);
      var ours, theirs := PathGroups(later), Build(NoDelays(lines[1..]), {name}, []);
      assert PathGroups([Group(agents, rules)] + later) == [g] + ours && standard == [g] + theirs;
      assert ([g] + ours)[1..] == ours && ([g] + theirs)[1..] == theirs;
    } else if agents == {} {
      BuildExact(lines[1..], {name}, []);
      assert {} + {name} == {name};
      assert PathGroups([Group(agents, rules)] + later) == [] + PathGroups(later) == PathGroups(later);
    } else {
      StandardShape(NoDelays(lines), agents, []);
      PathGroupsNamed(lines[1..], {name}, []);
      assert ([g] + PathGroups(later))[0].rules == [];
    }
  }

  /** The groups read from a file are the standard's, crawl delays aside, exactly when no group that names
      agents is split by a delay. */
  lemma GroupsExact(lines: seq<Line>)
    ensures PathGroups(Build(lines, {}, [])) == StandardGroups(lines) <==> !SplitByDelay(Build(lines, {}, []))
  {
    BuildExact(lines, {}, []);
  }

  // ------------------------------------------------------------------ the whole file

  lemma {:induction false} PathRulesAre(rules: seq<Rule>)
    ensures forall r :: r in PathRules(rules) <==> r in rules && !r.field.CrawlDelay?
  {
    if rules != [] {
      PathRulesAre(rules[..|rules| - 1]);
      assert rules == rules[..|rules| - 1] + [rules[|rules| - 1]];
    }
  }

  lemma RefusesPathRules(rules: seq<Rule>, path: string)
    ensures Refuses(PathRules(rules), path) == Refuses(rules, path)
  {
    PathRulesAre(rules);
  }

  // ------------------------------------------------------------------ the standard's groups from the code's

  /** The groups with path rules, each with the names of the delay-only groups right before it. */
  function Merged(groups: seq<Group>, carry: set<string>): seq<Group> {
    if groups == [] then if carry != {} then [Group(carry, [])] else []
    else
      var names, rules := carry + groups[0].agents, PathRules(groups[0].rules);
      if rules == [] then Merged(groups[1..], names) else [Group(names, rules)] + Merged(groups[1..], {})
  }

  lemma MergedOne(g: Group, rest: seq<Group>, carry: set<string>)
    ensures Merged([g] + rest, carry) ==
      if PathRules(g.rules) == [] then Merged(rest, carry + g.agents)
      else [Group(carry + g.agents, PathRules(g.rules))] + Merged(rest, {})
  {
    assert ([g] + rest)[1..] == rest;
  }

  lemma PathRulesMore(rules: seq<Rule>, rule: Rule)
    ensures PathRules(rules + [rule]) == PathRules(rules) + if rule.field.CrawlDelay? then [] else [rule]
  {
    assert (rules + [rule])[..|rules|] == rules;
  }

  lemma {:induction false} MergedBuild(lines: seq<Line>, carry: set<string>, agents: set<string>, rules: seq<Rule>)
    ensures Build(NoDelays(lines), carry + agents, PathRules(rules)) == Merged(Build(lines, agents, rules), carry)
    decreases |lines|, 1
  {
    if lines == [] {
      MergedOne(Group(agents, rules), [], carry);
      assert [Group(agents, rules)] + [] == [Group(agents, rules)];
      assert PathRules(rules) == [] ==> [Group(carry + agents, [])] + Merged([], {}) == [Group(carry + agents, [])];
      assert carry + {} == carry;
    } else {
      var later := NoDelays(lines[1..]);
      match lines[0]
      case Directive(rule) =>
        MergedBuild(lines[1..], carry, agents, rules + [rule]);
        PathRulesMore(rules, rule);
        assert PathRules(rules) + [] == PathRules(rules);
        if !rule.field.CrawlDelay? { assert NoDelays(lines)[1..] == later; }
      case Agent(name) =>
        assert NoDelays(lines)[1..] == later;
        MergedAgent(lines, carry, agents, rules, name);
    }
  }

  lemma {:induction false} MergedAgent(lines: seq<Line>, carry: set<string>, agents: set<string>, rules: seq<Rule>,
                                       name: string)
    requires lines != [] && lines[0] == Agent(name) && NoDelays(lines)[1..] == NoDelays(lines[1..])
    ensures Build(NoDelays(lines), carry + agents, PathRules(rules)) == Merged(Build(lines, agents, rules), carry)
    decreases |lines|, 0
  {
    if rules == [] {
      MergedBuild(lines[1..], carry, agents + {name}, []);
      assert carry + (agents + {name}) == carry + agents + {name};
    } else {
      MergedOne(Group(agents, rules), Build(lines[1..], {name}, []), carry);
      if PathRules(rules) == [] {
        MergedBuild(lines[1..], carry + agents, {name}, []);
      } else {
        MergedBuild(lines[1..], {}, {name}, []);
        assert {} + {name} == {name};
      }
    }
  }

  /** The standard's groups of every file are the code's, each delay-only group's names handed to the next group. */
  lemma StandardIsMerged(lines: seq<Line>)
    ensures StandardGroups(lines) == Merged(Build(lines, {}, []), {})
  {
    MergedBuild(lines, {}, {}, []);
    var none: set<string> := {};
    assert none + none == none;
  }

  /** The names a group has in the standard's reading: its own, and those of the delay-only groups right before. */
  function Carried(groups: seq<Group>, carry: set<string>, k: nat): set<string>
    requires k < |groups|
  {
    if k == 0 then carry + groups[0].agents
    else groups[k].agents + if PathRules(groups[k - 1].rules) == [] then Carried(groups, carry, k - 1) else {}
  }

  /** What the first group hands to the next. */
  function Handed(g: Group, carry: set<string>): set<string> {
    if PathRules(g.rules) == [] then carry + g.agents else {}
  }

  lemma {:induction false} CarriedTail(groups: seq<Group>, carry: set<string>, k: nat)
    requires 0 < k < |groups|
    ensures Carried(groups, carry, k) == Carried(groups[1..], Handed(groups[0], carry), k - 1)
  {
    hide PathRules;
    if k > 1 {
      CarriedTail(groups, carry, k - 1);
      assert groups[1..][k - 1] == groups[k] && groups[1..][k - 2] == groups[k - 1];
    }
  }

  function Reading(groups: seq<Group>, carry: set<string>, k: nat): Group
    requires k < |groups|
  {
    Group(Carried(groups, carry, k), PathRules(groups[k].rules))
  }

  lemma {:induction false} MergedHas(groups: seq<Group>, carry: set<string>, k: nat)
    requires k < |groups| && PathRules(groups[k].rules) != []
    ensures Reading(groups, carry, k) in Merged(groups, carry)
  {
    hide PathRules;
    if k > 0 {
      MergedHas(groups[1..], Handed(groups[0], carry), k - 1);
      CarriedTail(groups, carry, k);
    }
  }

  lemma {:induction false} MergedFrom(groups: seq<Group>, carry: set<string>, h: Group) returns (k: nat)
    requires h in Merged(groups, carry) && h.rules != []
    ensures k < |groups| && h == Reading(groups, carry, k)
  {
    hide PathRules;
    var first := Group(carry + groups[0].agents, PathRules(groups[0].rules));
    if h == first {
      k := 0;
    } else {
      k := MergedFrom(groups[1..], Handed(groups[0], carry), h);
      k := k + 1;
      CarriedTail(groups, carry, k);
    }
  }

  ghost predicate Named(groups: seq<Group>, name: string) {
    exists g :: g in groups && name in g.agents
  }

  lemma NamedBehind(g: Group, rest: seq<Group>, name: string)
    ensures Named([g] + rest, name) <==> name in g.agents || Named(rest, name)
  {
    assert g in [g] + rest;
    if Named(rest, name) {
      var h :| h in rest && name in h.agents;
      assert h in [g] + rest;
    }
  }

  lemma {:induction false} MergedNames(groups: seq<Group>, carry: set<string>, name: string)
    ensures Named(Merged(groups, carry), name) <==> name in carry || Named(groups, name)
  {
    hide PathRules;
    if groups == [] {
      assert carry != {} ==> Group(carry, []) in Merged(groups, carry);
    } else {
      var g, rest := groups[0], groups[1..];
      assert groups == [g] + rest;
      NamedBehind(g, rest, name);
      MergedNames(rest, Handed(g, carry), name);
      if PathRules(g.rules) != [] {
        NamedBehind(Group(carry + g.agents, PathRules(g.rules)), Merged(rest, {}), name);
      }
    }
  }

  // ------------------------------------------------------------------ when the reading can be looser

  /** The standard puts the group's path rules over the name, and the evaluator passes the group by. */
  ghost predicate ExposedAt(groups: seq<Group>, k: nat, name: string) {
    && k < |groups| && name in OUR_ROBOT_NAMES && PathRules(groups[k].rules) != [] && !Relevant(groups[k])
    && (name in Carried(groups, {}, k) || (!Named(groups, name) && "*" in Carried(groups, {}, k)))
  }

  ghost predicate Exposed(groups: seq<Group>) {
    exists k: nat, name :: ExposedAt(groups, k, name)
  }

  ghost predicate Looser(groups: seq<Group>, path: string, name: string) {
    !Refused(groups, path) && !StandardAllows(Merged(groups, {}), name, path)
  }

  /** The group the standard takes a rule from, for the name. */
  lemma GovernedFrom(groups: seq<Group>, name: string, d: Rule) returns (k: nat)
    requires Governs(Merged(groups, {}), name, d) && !Exposed(groups) && name in OUR_ROBOT_NAMES
    ensures k < |groups| && Relevant(groups[k]) && d in PathRules(groups[k].rules)
    ensures forall a :: a in PathRules(groups[k].rules) ==> Governs(Merged(groups, {}), name, a)
  {
    var std := Merged(groups, {});
    MergedNames(groups, {}, name);
    var named := Named(std, name);
    assert named <==> exists g :: g in std && name in g.agents;
    var g :| g in std && d in g.rules && if named then name in g.agents else "*" in g.agents;
    k := MergedFrom(groups, {}, g);
    assert !ExposedAt(groups, k, name);
  }

  lemma UnexposedNeverLooser(groups: seq<Group>, path: string, name: string)
    requires !Exposed(groups) && name in OUR_ROBOT_NAMES
    ensures !Looser(groups, path, name)
  {
    var std := Merged(groups, {});
    if !StandardAllows(std, name, path) {
      hide Governs, Exposed, Applies, Merged;
      var d :| Governs(std, name, d) && d.field.Disallow? && Applies(d, path) &&
        (forall a :: Governs(std, name, a) && a.field.Allow? && Applies(a, path) ==> |a.value| < |d.value|);
      var k := GovernedFrom(groups, name, d);
      assert Refuses(PathRules(groups[k].rules), path);
      RefusesPathRules(groups[k].rules, path);
    }
  }

  // ------------------------------------------------------------------ files of one shape

  /** The same agent lines and crawl delays in the same places; the path rules may be any. */
  ghost predicate SameShape(lines: seq<Line>, lines': seq<Line>) {
    |lines| == |lines'| && forall i :: 0 <= i < |lines| ==> SameLine(lines[i], lines'[i])
  }

  predicate SameLine(l: Line, m: Line) {
    if l.Agent? then m == l else m.Directive? && (l.rule.field.CrawlDelay? <==> m.rule.field.CrawlDelay?)
  }

  ghost predicate SameKind(groups: seq<Group>, groups': seq<Group>) {
    |groups| == |groups'| && forall i :: 0 <= i < |groups| ==> LikeGroup(groups[i], groups'[i])
  }

  predicate LikeGroup(g: Group, h: Group) {
    g.agents == h.agents && (PathRules(g.rules) == [] <==> PathRules(h.rules) == [])
  }

  lemma NoPathRules()
    ensures PathRules([]) == []
  {
  }

  lemma {:induction false} ShapeGroups(lines: seq<Line>, lines': seq<Line>, agents: set<string>, rules: seq<Rule>,
                                       rules': seq<Rule>)
    requires SameShape(lines, lines') && (rules == [] <==> rules' == [])
    requires PathRules(rules) == [] <==> PathRules(rules') == []
    ensures SameKind(Build(lines, agents, rules), Build(lines', agents, rules'))
  {
    hide PathRules;
    NoPathRules();
    if lines != [] {
      assert SameLine(lines[0], lines'[0]);
      assert SameShape(lines[1..], lines'[1..]) by {
        forall i | 0 <= i < |lines| - 1 ensures SameLine(lines[1..][i], lines'[1..][i]) {
          assert SameLine(lines[i + 1], lines'[i + 1]);
        }
      }
      match lines[0]
      case Agent(name) =>
        ShapeGroups(lines[1..], lines'[1..], {name}, [], []);
        ShapeGroups(lines[1..], lines'[1..], agents + {name}, [], []);
      case Directive(rule) =>
        var rule' := lines'[0].rule;
        PathRulesMore(rules, rule);
        PathRulesMore(rules', rule');
        ShapeGroups(lines[1..], lines'[1..], agents, rules + [rule], rules' + [rule']);
    }
  }

  lemma {:induction false} KindCarried(groups: seq<Group>, groups': seq<Group>, carry: set<string>, k: nat)
    requires SameKind(groups, groups') && k < |groups|
    ensures Carried(groups, carry, k) == Carried(groups', carry, k)
  {
    hide PathRules, LikeGroup;
    assert LikeGroup(groups[k], groups'[k]);
    LikeParts(groups[k], groups'[k]);
    if k > 0 {
      assert LikeGroup(groups[k - 1], groups'[k - 1]);
      LikeParts(groups[k - 1], groups'[k - 1]);
      KindCarried(groups, groups', carry, k - 1);
    }
  }

  lemma LikeParts(g: Group, h: Group)
    requires LikeGroup(g, h)
    ensures g.agents == h.agents && (PathRules(g.rules) == [] <==> PathRules(h.rules) == [])
    ensures Relevant(g) <==> Relevant(h)
  {
  }

  lemma KindNamed(groups: seq<Group>, groups': seq<Group>, name: string)
    requires SameKind(groups, groups') && Named(groups', name)
    ensures Named(groups, name)
  {
    var g :| g in groups' && name in g.agents;
    var i :| 0 <= i < |groups'| && groups'[i] == g;
    assert LikeGroup(groups[i], groups'[i]);
  }

  lemma KindExposed(groups: seq<Group>, groups': seq<Group>, k: nat, name: string)
    requires SameKind(groups, groups') && ExposedAt(groups, k, name)
    ensures ExposedAt(groups', k, name)
  {
    hide PathRules, Relevant, Named, SameKind;
    assert LikeGroup(groups[k], groups'[k]) by { SameAt(groups, groups', k); }
    LikeParts(groups[k], groups'[k]);
    KindCarried(groups, groups', {}, k);
    if Named(groups', name) { KindNamed(groups, groups', name); }
  }

  lemma SameAt(groups: seq<Group>, groups': seq<Group>, k: nat)
    requires SameKind(groups, groups') && k < |groups|
    ensures |groups| == |groups'| && LikeGroup(groups[k], groups'[k])
  {
  }

  lemma SameKindSym(groups: seq<Group>, groups': seq<Group>)
    requires SameKind(groups, groups')
    ensures SameKind(groups', groups)
  {
    forall i | 0 <= i < |groups| ensures LikeGroup(groups'[i], groups[i]) { assert LikeGroup(groups[i], groups'[i]); }
  }

  // ------------------------------------------------------------------ the file that shows it

  function Body(field: Field, target: bool, value: string): Rule {
    if field.CrawlDelay? then Rule(CrawlDelay, value) else Rule(Disallow, if target then "/" else "")
  }

  /** The file with `Disallow: /` for every path rule of the k-th group from here and `Disallow:` for all others. */
  function Paint(lines: seq<Line>, ruled: bool, k: int): (r: seq<Line>)
    ensures |r| == |lines|
  {
    if lines == [] then []
    else
      match lines[0]
      case Agent(name) => [lines[0]] + Paint(lines[1..], false, if ruled then k - 1 else k)
      case Directive(rule) =>
        [Directive(Body(rule.field, k == 0, rule.value))] + Paint(lines[1..], true, k)
  }

  lemma {:induction false} PaintShape(lines: seq<Line>, ruled: bool, k: int)
    ensures SameShape(lines, Paint(lines, ruled, k))
  {
    if lines != [] {
      PaintShape(lines[1..], false, if ruled then k - 1 else k);
      PaintShape(lines[1..], true, k);
      var p := Paint(lines, ruled, k);
      forall i | 0 <= i < |lines| ensures SameLine(lines[i], p[i]) {
        if i > 0 { assert lines[i] == lines[1..][i - 1] && p[i] == p[1..][i - 1]; }
      }
    }
  }

  /** Every path rule is the painted one. */
  predicate Painted(rules: seq<Rule>, target: bool) {
    forall r :: r in rules && !r.field.CrawlDelay? ==> r == Rule(Disallow, if target then "/" else "")
  }

  ghost predicate AllPainted(groups: seq<Group>, k: int) {
    forall m :: 0 <= m < |groups| ==> Painted(groups[m].rules, m == k)
  }

  lemma PaintedBehind(g: Group, rest: seq<Group>, k: int)
    requires Painted(g.rules, k == 0) && AllPainted(rest, k - 1)
    ensures AllPainted([g] + rest, k)
  {
    hide Painted;
    var gs := [g] + rest;
    forall m | 0 <= m < |gs| ensures Painted(gs[m].rules, m == k) {
      if m > 0 { assert Painted(rest[m - 1].rules, m - 1 == k - 1); }
    }
  }

  lemma {:induction false} PaintBodies(lines: seq<Line>, agents: set<string>, rules: seq<Rule>, k: int)
    requires Painted(rules, k == 0)
    ensures AllPainted(Build(Paint(lines, rules != [], k), agents, rules), k)
  {
    if lines == [] {
    } else {
      var p := Paint(lines, rules != [], k);
      match lines[0]
      case Agent(name) =>
        if rules == [] {
          PaintBodies(lines[1..], agents + {name}, [], k);
          assert p[1..] == Paint(lines[1..], false, k);
        } else {
          PaintBodies(lines[1..], {name}, [], k - 1);
          assert p[1..] == Paint(lines[1..], false, k - 1);
          PaintedBehind(Group(agents, rules), Build(p[1..], {name}, []), k);
        }
      case Directive(rule) =>
        var body := Body(rule.field, k == 0, rule.value);
        assert p[1..] == Paint(lines[1..], true, k);
        PaintBodies(lines[1..], agents, rules + [body], k);
    }
  }

  /** A disallow of nothing refuses nothing. */
  lemma EmptyRefuses(rules: seq<Rule>)
    requires Painted(rules, false)
    ensures !Refuses(rules, "/")
  {
    forall d | d in rules && d.field.Disallow? ensures !Applies(d, "/") { assert d == Rule(Disallow, ""); }
  }

  lemma PaintedAllowed(groups: seq<Group>, k: nat)
    requires AllPainted(groups, k) && k < |groups| && !Relevant(groups[k])
    ensures !Refused(groups, "/")
  {
    hide Relevant, Refuses, Painted;
    forall g | g in groups && Relevant(g) ensures !Refuses(g.rules, "/") {
      var m :| 0 <= m < |groups| && groups[m] == g;
      assert Painted(groups[m].rules, m == k);
      EmptyRefuses(g.rules);
    }
  }

  /** No governing rule is an allow. */
  lemma NoAllow(groups: seq<Group>, k: nat, name: string, a: Rule)
    requires AllPainted(groups, k) && Governs(Merged(groups, {}), name, a)
    ensures !a.field.Allow?
  {
    var h :| h in Merged(groups, {}) && a in h.rules;
    var m := MergedFrom(groups, {}, h);
    PathRulesAre(groups[m].rules);
    assert Painted(groups[m].rules, m == k);
  }

  lemma PaintedGoverns(groups: seq<Group>, k: nat, name: string)
    requires AllPainted(groups, k) && ExposedAt(groups, k, name)
    ensures Governs(Merged(groups, {}), name, Rule(Disallow, "/"))
  {
    var d, rules := Rule(Disallow, "/"), PathRules(groups[k].rules);
    PathRulesAre(groups[k].rules);
    assert Painted(groups[k].rules, k == k);
    assert rules[0] in rules && rules[0] == d;
    MergedHas(groups, {}, k);
    MergedNames(groups, {}, name);
    hide PathRules, Merged, Relevant;
    var g, std := Reading(groups, {}, k), Merged(groups, {});
    assert g in std && d in g.rules;
    assert Named(std, name) <==> exists h :: h in std && name in h.agents;
  }

  lemma PaintedRefused(groups: seq<Group>, k: nat, name: string)
    requires AllPainted(groups, k) && ExposedAt(groups, k, name)
    ensures Looser(groups, "/", name)
  {
    PaintedAllowed(groups, k);
    PaintedGoverns(groups, k, name);
    hide Governs, Refused, AllPainted;
    var d, std := Rule(Disallow, "/"), Merged(groups, {});
    assert Applies(d, "/");
    forall a | Governs(std, name, a) ensures !a.field.Allow? { NoAllow(groups, k, name, a); }
  }

  /** The evaluator allows what the standard refuses to one of our names. */
  ghost predicate FileLooser(lines: seq<Line>, path: string, name: string) {
    !Refused(Build(lines, {}, []), path) && !StandardAllows(StandardGroups(lines), name, path)
  }

  lemma ExposedLooser(lines: seq<Line>, k: nat, name: string) returns (lines': seq<Line>)
    requires ExposedAt(Build(lines, {}, []), k, name)
    ensures SameShape(lines, lines') && FileLooser(lines', "/", name)
  {
    lines' := Paint(lines, false, k);
    PaintShape(lines, false, k);
    ShapeGroups(lines, lines', {}, [], []);
    PaintBodies(lines, {}, [], k);
    KindExposed(Build(lines, {}, []), Build(lines', {}, []), k, name);
    PaintedRefused(Build(lines', {}, []), k, name);
    StandardIsMerged(lines');
  }

  lemma UnexposedFile(lines: seq<Line>, lines': seq<Line>, path: string, name: string)
    requires !Exposed(Build(lines, {}, [])) && SameShape(lines, lines') && name in OUR_ROBOT_NAMES
    ensures !FileLooser(lines', path, name)
  {
    var gs, gs' := Build(lines, {}, []), Build(lines', {}, []);
    ShapeGroups(lines, lines', {}, [], []);
    SameKindSym(gs, gs');
    hide ExposedAt, Build;
    if Exposed(gs') {
      var k: nat, n :| ExposedAt(gs', k, n);
      KindExposed(gs', gs, k, n);
    }
    UnexposedNeverLooser(gs', path, name);
    StandardIsMerged(lines');
  }

  /** No file with these agent lines and crawl delays in these places is read looser than the standard, whatever its
      path rules, if and only if each group with path rules that the standard puts over one of our names, by itself
      or through the delay-only groups right before it, is one the evaluator looks at. */
  lemma FileNeverLooser(lines: seq<Line>)
    ensures (forall lines', path, name :: SameShape(lines, lines') && name in OUR_ROBOT_NAMES ==>
              !FileLooser(lines', path, name)) <==> !Exposed(Build(lines, {}, []))
  {
    hide FileLooser, SameShape, ExposedAt, Build;
    if Exposed(Build(lines, {}, [])) {
      var k: nat, name :| ExposedAt(Build(lines, {}, []), k, name);
      var lines' := ExposedLooser(lines, k, name);
      ExposedName(Build(lines, {}, []), k, name);
    } else {
      forall lines', path, name | SameShape(lines, lines') && name in OUR_ROBOT_NAMES
        ensures !FileLooser(lines', path, name)
      {
        UnexposedFile(lines, lines', path, name);
      }
    }
  }

  lemma ExposedName(groups: seq<Group>, k: nat, name: string)
    requires ExposedAt(groups, k, name)
    ensures name in OUR_ROBOT_NAMES
  {
  }

  /** The split file: everyone and another agent share a group, with a delay between their two lines. */
  const SPLIT: seq<Line> :=
    [Agent("*"), Directive(Rule(CrawlDelay, "10")), Agent("other"), Directive(Rule(Disallow, "/"))]

  /** When a delay splits a group the reading can be looser: the evaluator allows what the standard refuses. */
  lemma SplitLooser()
    ensures SplitByDelay(Build(SPLIT, {}, []))
    ensures !Refused(Build(SPLIT, {}, []), "/") && !StandardAllows(StandardGroups(SPLIT), "claudebot", "/")
  {
    SplitGroups();
    var cd, d := Rule(CrawlDelay, "10"), Rule(Disallow, "/");
    SplitAllowed(cd, d);
    StandardRefuses(d);
  }

  lemma SplitAllowed(cd: Rule, d: Rule)
    requires cd.field.CrawlDelay?
    ensures !Refused([Group({"*"}, [cd]), Group({"other"}, [d])], "/")
    ensures PathRules([cd]) == [] ==> SplitByDelay([Group({"*"}, [cd]), Group({"other"}, [d])])
  {
    assert "other" !in OUR_ROBOT_NAMES;
    var groups := [Group({"*"}, [cd]), Group({"other"}, [d])];
    assert groups[0].agents != {} by { assert "*" in groups[0].agents; }
    assert PathRules([cd]) == [] ==> Hollow(groups[0]);
  }

  lemma StandardRefuses(d: Rule)
    requires d == Rule(Disallow, "/")
    ensures !StandardAllows([Group({"*", "other"}, [d])], "claudebot", "/")
  {
    var both := Group({"*", "other"}, [d]);
    assert Applies(d, "/");
    assert Governs([both], "claudebot", d) by { assert both in [both] && d in both.rules; }
  }

  lemma SplitGroups()
    ensures Build(SPLIT, {}, []) == [Group({"*"}, [Rule(CrawlDelay, "10")]), Group({"other"}, [Rule(Disallow, "/")])]
    ensures PathRules([Rule(CrawlDelay, "10")]) == []
    ensures StandardGroups(SPLIT) == [Group({"*", "other"}, [Rule(Disallow, "/")])]
  {
    var cd, d := Rule(CrawlDelay, "10"), Rule(Disallow, "/");
    var everyone, other := Group({"*"}, [cd]), Group({"other"}, [d]);
    assert SPLIT[1..] == [Directive(cd), Agent("other"), Directive(d)];
    assert SPLIT[1..][1..] == [Agent("other"), Directive(d)];
    assert SPLIT[1..][1..][1..] == [Directive(d)] && SPLIT[1..][1..][1..][1..] == [];
    assert {} + {"*"} == {"*"} && [] + [cd] == [cd] && [] + [d] == [d];
    assert Build([Directive(d)], {"other"}, []) == [other];
    assert Build(SPLIT, {}, []) == [everyone, other];
    assert PathRules([cd]) == [];
    var lines := NoDelays(SPLIT);
    assert lines == [Agent("*"), Agent("other"), Directive(d)];
    assert lines[1..] == [Agent("other"), Directive(d)] && lines[1..][1..] == [Directive(d)];
    assert {"*"} + {"other"} == {"*", "other"};
    var both := Group({"*", "other"}, [d]);
    assert Build([Directive(d)], {"*", "other"}, []) == [both];
  }
}
