/** The router sidecar: HTTPRoutes compiled to a rule table, and the table matched against request paths. */
module Router {
  import opened Wrappers
  import opened Sorting

  datatype PathType = Exact | Prefix | OtherType

  datatype PathMatch = PathMatch(kind: PathType, value: string)

  datatype Backend = Backend(ns: string, name: string, port: int)

  datatype Rule = Rule(matches: seq<PathMatch>, backends: seq<Backend>)

  // ---------------------------------------------------------------- one match

  function PathScore(m: PathMatch): int {
    if m.kind == Exact then 0x1_0000 + |m.value| else |m.value|
  }

  predicate StartsWith(s: string, p: string) {
    |s| >= |p| && s[..|p|] == p
  }

  predicate PathMatches(m: PathMatch, path: string) {
    match m.kind
    case Exact => path == m.value
    case Prefix =>
      path == m.value || StartsWith(path, if m.value == "/" then m.value else m.value + "/")
    case OtherType => false
  }

  // ---------------------------------------------------------------- the table

  /** The candidates in table order: each match of each rule that has a backend, with that rule's first backend. */
  datatype Candidate = Candidate(path: PathMatch, backend: Backend)

  function RuleCandidates(r: Rule): seq<Candidate> {
    if r.backends == [] then []
    else seq(|r.matches|, i requires 0 <= i < |r.matches| => Candidate(r.matches[i], r.backends[0]))
  }

  function Candidates(rules: seq<Rule>): seq<Candidate> {
    Collect(RuleCandidates, rules)
  }

  /** Gateway API precedence on matches: Exact beats Prefix, and among prefixes the longer value wins. */
  predicate Beats(a: PathMatch, b: PathMatch) {
    (a.kind == Exact && b.kind != Exact) || (a.kind != Exact && b.kind != Exact && |a.value| > |b.value|)
  }

  /** `w` is the first candidate that matches the path and that no matching candidate beats. */
  ghost predicate Wins(cs: seq<Candidate>, path: string, w: int) {
    && 0 <= w < |cs| && PathMatches(cs[w].path, path)
    && (forall i | 0 <= i < |cs| && PathMatches(cs[i].path, path) :: !Beats(cs[i].path, cs[w].path))
    && (forall i | 0 <= i < w && PathMatches(cs[i].path, path) :: Beats(cs[w].path, cs[i].path))
  }

  /**
   * The scores realise the precedence on the matches of one request, at any path length; and two of them
   * that tie are the same match.
   */
  lemma ScoresRankMatches(a: PathMatch, b: PathMatch, path: string)
    requires PathMatches(a, path) && PathMatches(b, path)
    ensures PathScore(a) > PathScore(b) <==> Beats(a, b)
    ensures PathScore(a) == PathScore(b) <==> a == b
  {
    PrefixValue(a, path);
    PrefixValue(b, path);
  }

  lemma PrefixValue(m: PathMatch, path: string)
    requires PathMatches(m, path)
    ensures |m.value| <= |path| && m.value == path[..|m.value|]
    ensures m.kind == Exact ==> m.value == path
    ensures m.kind != OtherType
  {
    if m.kind == Prefix && path != m.value && m.value != "/" {
      assert (m.value + "/")[..|m.value|] == m.value;
    }
  }

  /** The best of the first `n` candidates, as the loop keeps it. */
  ghost predicate BestSoFar(cs: seq<Candidate>, path: string, found: bool, score: int, best: Backend, w: int) {
    && (!found ==> score == -1 && forall i | 0 <= i < |cs| :: !PathMatches(cs[i].path, path))
    && (found ==> Wins(cs, path, w) && score == PathScore(cs[w].path) && best == cs[w].backend)
  }

  lemma BestStep(cs: seq<Candidate>, path: string, found: bool, score: int, best: Backend, w: int, c: Candidate)
    requires BestSoFar(cs, path, found, score, best, w)
    ensures var better := PathMatches(c.path, path) && PathScore(c.path) > score;
            BestSoFar(cs + [c], path, found || better, if better then PathScore(c.path) else score,
                      if better then c.backend else best, if better then |cs| else w)
  {
    var ds := cs + [c];
    assert forall i | 0 <= i < |cs| :: ds[i] == cs[i];
    if PathMatches(c.path, path) && found {
      ScoresRankMatches(c.path, cs[w].path, path);
      forall i | 0 <= i < |cs| && PathMatches(cs[i].path, path)
        ensures PathScore(c.path) > PathScore(cs[w].path) ==> Beats(c.path, cs[i].path) && !Beats(cs[i].path, c.path)
      {
        ScoresRankMatches(cs[w].path, cs[i].path, path);
        ScoresRankMatches(c.path, cs[i].path, path);
        ScoresRankMatches(cs[i].path, cs[w].path, path);
      }
    }
  }

  /** What each kind of match accepts: the value itself, or the value followed by a slash, or anything rooted. */
  lemma MatchesExactly(value: string, path: string)
    ensures PathMatches(PathMatch(Exact, value), path) <==> path == value
    ensures PathMatches(PathMatch(Prefix, value), path) <==>
            || path == value || (value == "/" && path != "" && path[0] == '/')
            || (value != "/" && |path| > |value| && path[..|value|] == value && path[|value|] == '/')
    ensures !PathMatches(PathMatch(OtherType, value), path)
  {
    if |path| > |value| {
      assert path[..|value| + 1] == path[..|value|] + [path[|value|]];
      assert (value + "/")[..|value|] == value && (value + "/")[|value|] == '/';
    }
  }

  /**
   * Match `k` of rule `n` is chosen: the rule has a backend, the match accepts the path, no accepting match of
   * any rule with a backend beats it, and it beats all earlier ones.
   */
  ghost predicate Chosen(rules: seq<Rule>, path: string, n: int, k: int) {
    && 0 <= n < |rules| && rules[n].backends != []
    && 0 <= k < |rules[n].matches| && PathMatches(rules[n].matches[k], path)
    && forall m, j | 0 <= m < |rules| && rules[m].backends != [] && 0 <= j < |rules[m].matches|
                     && PathMatches(rules[m].matches[j], path) ::
         && !Beats(rules[m].matches[j], rules[n].matches[k])
         && (m < n || (m == n && j < k) ==> Beats(rules[n].matches[k], rules[m].matches[j]))
  }

  /** Where in the table of candidates match `k` of rule `n` stands. */
  lemma CandidateAt(rules: seq<Rule>, n: nat, k: nat) returns (c: nat)
    requires n < |rules| && rules[n].backends != [] && k < |rules[n].matches|
    ensures c == |Candidates(rules[..n])| + k < |Candidates(rules)|
    ensures Candidates(rules)[c] == Candidate(rules[n].matches[k], rules[n].backends[0])
    ensures |Candidates(rules[..n + 1])| == |Candidates(rules[..n])| + |rules[n].matches|
  {
    c := |Candidates(rules[..n])| + k;
    assert rules == rules[..n] + [rules[n]] + rules[n + 1..] && rules[..n + 1] == rules[..n] + [rules[n]];
    CollectConcat(RuleCandidates, rules[..n] + [rules[n]], rules[n + 1..]);
    CollectStep(RuleCandidates, rules[..n], rules[n]);
  }

  lemma CandidatesGrow(rules: seq<Rule>, m: nat, n: nat)
    requires m <= n <= |rules|
    ensures |Candidates(rules[..m])| <= |Candidates(rules[..n])|
  {
    assert rules[..n] == rules[..m] + rules[m..n];
    CollectConcat(RuleCandidates, rules[..m], rules[m..n]);
  }

  lemma {:induction false} CandidateOrigin(rules: seq<Rule>, c: nat) returns (n: nat, k: nat)
    requires c < |Candidates(rules)|
    ensures n < |rules| && rules[n].backends != [] && k < |rules[n].matches|
    ensures c == |Candidates(rules[..n])| + k
  {
    var init, last := rules[..|rules| - 1], rules[|rules| - 1];
    if c < |Candidates(init)| {
      n, k := CandidateOrigin(init, c);
      assert init[..n] == rules[..n];
    } else {
      n, k := |rules| - 1, c - |Candidates(init)|;
    }
  }

  /** The winning candidate, as a rule and a match of it. */
  lemma WinnerIsChosen(rules: seq<Rule>, path: string, w: nat) returns (n: nat, k: nat)
    requires Wins(Candidates(rules), path, w)
    ensures Chosen(rules, path, n, k) && Candidates(rules)[w].backend == rules[n].backends[0]
  {
    n, k := CandidateOrigin(rules, w);
    var c := CandidateAt(rules, n, k);
    forall m, j | 0 <= m < |rules| && rules[m].backends != [] && 0 <= j < |rules[m].matches|
                  && PathMatches(rules[m].matches[j], path)
      ensures !Beats(rules[m].matches[j], rules[n].matches[k])
      ensures m < n || (m == n && j < k) ==> Beats(rules[n].matches[k], rules[m].matches[j])
    {
      var d := CandidateAt(rules, m, j);
      if m < n {
        CandidatesGrow(rules, m + 1, n);
      }
    }
  }

  lemma NothingAccepts(rules: seq<Rule>, path: string, m: nat, j: nat)
    requires forall i | 0 <= i < |Candidates(rules)| :: !PathMatches(Candidates(rules)[i].path, path)
    requires m < |rules| && rules[m].backends != [] && j < |rules[m].matches|
    ensures !PathMatches(rules[m].matches[j], path)
  {
    var d := CandidateAt(rules, m, j);
  }

  /** The nested loop over rules and matches, with integer scores. */
  method Match(rules: seq<Rule>, path: string) returns (best: Backend, found: bool, ghost w: int)
    ensures found ==> exists n, k :: Chosen(rules, path, n, k) && best == rules[n].backends[0]
    ensures !found ==> forall m, j | 0 <= m < |rules| && rules[m].backends != [] && 0 <= j < |rules[m].matches| ::
      !PathMatches(rules[m].matches[j], path)
    ensures found ==> Wins(Candidates(rules), path, w) && best == Candidates(rules)[w].backend
    ensures found <==> exists i :: 0 <= i < |Candidates(rules)| && PathMatches(Candidates(rules)[i].path, path)
  {
    best, found, w := Backend("", "", 0), false, -1;
    var bestScore := -1;
    for n := 0 to |rules|
      invariant BestSoFar(Candidates(rules[..n]), path, found, bestScore, best, w)
    {
      assert rules[..n + 1][..n] == rules[..n];
      ghost var before := Candidates(rules[..n]);
      var rule := rules[n];
      if |rule.backends| == 0 {
        assert before + [] == before;
        continue;
      }
      ghost var own := RuleCandidates(rule);
      assert before + own[..0] == before;
      for k := 0 to |rule.matches|
        invariant BestSoFar(before + own[..k], path, found, bestScore, best, w)
      {
        var m := rule.matches[k];
        BestStep(before + own[..k], path, found, bestScore, best, w, own[k]);
        assert before + own[..k] + [own[k]] == before + own[..k + 1];
        if !PathMatches(m, path) {
          continue;
        }
        var s := PathScore(m);
        if s > bestScore {
          w := |before| + k;
          bestScore := s;
          best := rule.backends[0];
          found := true;
        }
      }
      assert own[..|rule.matches|] == own;
    }
    assert rules[..|rules|] == rules;
    if found {
      ghost var n, k := WinnerIsChosen(rules, path, w);
    } else {
      forall m, j | 0 <= m < |rules| && rules[m].backends != [] && 0 <= j < |rules[m].matches|
        ensures !PathMatches(rules[m].matches[j], path)
      {
        NothingAccepts(rules, path, m, j);
      }
    }
  }

  // ---------------------------------------------------------------- order and concatenation

  /** There is at most one winner. */
  lemma WinnerIsUnique(cs: seq<Candidate>, path: string, w: int, w': int)
    requires Wins(cs, path, w) && Wins(cs, path, w')
    ensures w == w'
  {
  }

  /** Reordering rules can only change the winner among candidates with the identical match. */
  lemma WinningMatchIgnoresOrder(cs: seq<Candidate>, ds: seq<Candidate>, path: string, w: int, w': int)
    requires multiset(cs) == multiset(ds) && Wins(cs, path, w) && Wins(ds, path, w')
    ensures cs[w].path == ds[w'].path
  {
    assert cs[w] in multiset(ds) && ds[w'] in multiset(cs);
    var i :| 0 <= i < |ds| && ds[i] == cs[w];
    var j :| 0 <= j < |cs| && cs[j] == ds[w'];
    ScoresRankMatches(cs[w].path, ds[w'].path, path);
    ScoresRankMatches(ds[w'].path, cs[w].path, path);
  }

  /** The same for the rules themselves. */
  lemma WinningMatchIgnoresRuleOrder(rules: seq<Rule>, rules': seq<Rule>, path: string, w: int, w': int)
    requires multiset(rules) == multiset(rules')
    requires Wins(Candidates(rules), path, w) && Wins(Candidates(rules'), path, w')
    ensures Candidates(rules)[w].path == Candidates(rules')[w'].path
  {
    CollectOfPermutation(RuleCandidates, rules, rules');
    WinningMatchIgnoresOrder(Candidates(rules), Candidates(rules'), path, w, w');
  }

  /** Matching two tables in one is taking the better of the two winners, the left one on a tie. */
  lemma ConcatenationIsBiasedChoice(cs: seq<Candidate>, ds: seq<Candidate>, path: string, a: int, b: int)
    requires Wins(cs, path, a) && Wins(ds, path, b)
    ensures Wins(cs + ds, path, if Beats(ds[b].path, cs[a].path) then |cs| + b else a)
  {
    var es := cs + ds;
    ScoresRankMatches(cs[a].path, ds[b].path, path);
    ScoresRankMatches(ds[b].path, cs[a].path, path);
    forall i | 0 <= i < |es| && PathMatches(es[i].path, path)
      ensures !Beats(es[i].path, if Beats(ds[b].path, cs[a].path) then ds[b].path else cs[a].path)
      ensures i < |cs| && Beats(ds[b].path, cs[a].path) ==> Beats(ds[b].path, es[i].path)
    {
      ScoresRankMatches(es[i].path, cs[a].path, path);
      ScoresRankMatches(es[i].path, ds[b].path, path);
      ScoresRankMatches(ds[b].path, es[i].path, path);
    }
  }

  /** A side without a match leaves the other side's winner. */
  lemma ConcatenationWithNoMatch(cs: seq<Candidate>, ds: seq<Candidate>, path: string, w: int)
    requires Wins(cs, path, w) && forall i | 0 <= i < |ds| :: !PathMatches(ds[i].path, path)
    ensures Wins(cs + ds, path, w) && Wins(ds + cs, path, |ds| + w)
  {
  }

  /** The winner of a table on a path, if any candidate matches. */
  ghost predicate Outcome(cs: seq<Candidate>, path: string, w: Option<nat>) {
    match w
    case Some(i) => Wins(cs, path, i)
    case None => forall i | 0 <= i < |cs| :: !PathMatches(cs[i].path, path)
  }

  /** The left-biased better of two outcomes, as an index into the concatenated table. */
  function Better(cs: seq<Candidate>, ds: seq<Candidate>, a: Option<nat>, b: Option<nat>): Option<nat>
    requires (a.Some? ==> a.value < |cs|) && (b.Some? ==> b.value < |ds|)
  {
    if b.None? then a
    else if a.None? || Beats(ds[b.value].path, cs[a.value].path) then Some(|cs| + b.value)
    else a
  }

  /** Matching two tables in one, with a winner in both, in either or in none. */
  lemma ConcatenationOutcome(cs: seq<Candidate>, ds: seq<Candidate>, path: string, a: Option<nat>, b: Option<nat>)
    requires Outcome(cs, path, a) && Outcome(ds, path, b)
    ensures (a.Some? ==> a.value < |cs|) && (b.Some? ==> b.value < |ds|)
    ensures Outcome(cs + ds, path, Better(cs, ds, a, b))
  {
    if a.Some? && b.Some? {
      ConcatenationIsBiasedChoice(cs, ds, path, a.value, b.value);
    } else if a.Some? {
      ConcatenationWithNoMatch(cs, ds, path, a.value);
    } else if b.Some? {
      ConcatenationWithNoMatch(ds, cs, path, b.value);
    }
  }

  // ---------------------------------------------------------------- prefixes as segments

  /** The path's elements: split at '/', a final empty element dropped. */
  function Split(s: string): (r: seq<string>)
    ensures r != []
  {
    if s == [] then [""]
    else if s[0] == '/' then [""] + Split(s[1..])
    else var r := Split(s[1..]); [[s[0]] + r[0]] + r[1..]
  }

  function Elements(s: string): seq<string> {
    var r := Split(s);
    if r[|r| - 1] == "" then r[..|r| - 1] else r
  }

  /** The Gateway API's reading of PathPrefix: element by element. */
  predicate ElementPrefix(value: string, path: string) {
    Elements(value) <= Elements(path)
  }

  lemma {:induction false} SplitPrefix(v: string, path: string)
    ensures Split(v) <= Split(path) <==> path == v || StartsWith(path, v + "/")
  {
    if v == [] {
      assert path != [] ==> (path[0] == '/' <==> StartsWith(path, "/"));
    } else if path == [] {
    } else {
      SplitPrefix(v[1..], path[1..]);
      assert v == [v[0]] + v[1..] && path == [path[0]] + path[1..];
      ShiftPrefix(v, path);
      var r, q := Split(v[1..]), Split(path[1..]);
      if v[0] != path[0] {
        SplitHead(v);
        SplitHead(path);
        assert Split(v)[0] != Split(path)[0];
      } else if v[0] == '/' {
        assert ([""] + r)[1..] == r && ([""] + q)[1..] == q;
        assert [""] + r <= [""] + q <==> r <= q;
      } else {
        ConsPrefix(v[0], r, q);
      }
    }
  }

  lemma SplitHead(s: string)
    requires s != []
    ensures if s[0] == '/' then Split(s)[0] == "" else Split(s)[0] != "" && Split(s)[0][0] == s[0]
  {
  }

  lemma ShiftPrefix(v: string, path: string)
    requires v != [] && path != []
    ensures StartsWith(path, v + "/") <==> v[0] == path[0] && StartsWith(path[1..], v[1..] + "/")
  {
    assert (v + "/")[1..] == v[1..] + "/";
    if |path| >= |v| + 1 {
      assert path[..|v| + 1] == [path[0]] + path[1..][..|v|];
      assert v + "/" == [v[0]] + (v[1..] + "/");
    }
  }

  lemma ConsPrefix(c: char, r: seq<string>, q: seq<string>)
    requires r != [] && q != []
    ensures [[c] + r[0]] + r[1..] <= [[c] + q[0]] + q[1..] <==> r <= q
  {
    var r', q' := [[c] + r[0]] + r[1..], [[c] + q[0]] + q[1..];
    assert r'[0][1..] == r[0] && q'[0][1..] == q[0];
    if r' <= q' {
      assert r'[0] == q'[0];
      forall i | 0 <= i < |r| ensures r[i] == q[i] {
        assert i > 0 ==> r'[i] == q'[i];
      }
    }
  }

  lemma {:induction false} SplitAppend(s: string, c: char)
    requires c != '/'
    ensures var r := Split(s); Split(s + [c]) == r[..|r| - 1] + [r[|r| - 1] + [c]]
  {
    if s == [] {
      assert (s + [c])[1..] == [] && [c] + "" == [] + [c];
    } else {
      assert (s + [c])[1..] == s[1..] + [c];
      SplitAppend(s[1..], c);
      var r := Split(s[1..]);
      if s[0] != '/' && |r| == 1 {
        assert [s[0]] + (r[0] + [c]) == [s[0]] + r[0] + [c];
      }
    }
  }

  lemma {:induction false} SplitLastEmpty(s: string)
    ensures var r := Split(s); r[|r| - 1] == "" <==> s == [] || s[|s| - 1] == '/'
  {
    if s != [] {
      SplitLastEmpty(s[1..]);
    }
  }

  /**
   * A PathPrefix value means whole path elements, on every request path, exactly when it has no trailing
   * slash (or is "/" itself).
   */
  lemma PrefixIsElementWise(value: string)
    requires value != "" && value[0] == '/'
    ensures (forall path: string | path != "" && path[0] == '/' ::
               PathMatches(PathMatch(Prefix, value), path) <==> ElementPrefix(value, path))
       <==> value == "/" || value[|value| - 1] != '/'
  {
    if value == "/" || value[|value| - 1] != '/' {
      forall path: string | path != "" && path[0] == '/'
        ensures PathMatches(PathMatch(Prefix, value), path) <==> ElementPrefix(value, path)
      {
        ElementWise(value, path);
      }
    } else {
      var path := value + "x";
      TrailingSlashFails(value);
      assert PathMatches(PathMatch(Prefix, value), path) != ElementPrefix(value, path);
    }
  }

  lemma PrefixOfTrimmed(v: seq<string>, p: seq<string>)
    requires v != [] && p != [] && v[|v| - 1] != ""
    ensures v <= (if p[|p| - 1] == "" then p[..|p| - 1] else p) <==> v <= p
  {
    if v <= p && |v| == |p| {
      assert v[|v| - 1] == p[|v| - 1];
    }
  }

  lemma RootIsElementWise(path: string)
    requires path != "" && path[0] == '/'
    ensures StartsWith(path, "/") && ElementPrefix("/", path)
  {
    assert "/"[1..] == "";
    assert Split("/") == [""] + Split("") && Split("") == [""];
    assert Elements("/") == [""];
    assert Split(path)[0] == "" && |Split(path)| >= 2;
  }

  lemma ElementWise(value: string, path: string)
    requires value != "" && value[0] == '/' && path != "" && path[0] == '/'
    requires value == "/" || value[|value| - 1] != '/'
    ensures PathMatches(PathMatch(Prefix, value), path) <==> ElementPrefix(value, path)
  {
    if value == "/" {
      RootIsElementWise(path);
    } else {
      hide Split, StartsWith;
      SplitLastEmpty(value);
      SplitPrefix(value, path);
      PrefixOfTrimmed(Split(value), Split(path));
    }
  }

  lemma TrailingSlashFails(value: string)
    requires |value| > 1 && value[|value| - 1] == '/'
    ensures !PathMatches(PathMatch(Prefix, value), value + "x") && ElementPrefix(value, value + "x")
  {
    var path, r := value + "x", Split(value);
    SplitLastEmpty(value);
    SplitAppend(value, 'x');
    assert path[|value|] == 'x' && (value + "/")[|value|] == '/';
    assert Split(path)[|Split(path)| - 1] == r[|r| - 1] + ['x'];
    assert Elements(value) == r[..|r| - 1] && Elements(path) == Split(path);
  }

  // ---------------------------------------------------------------- compiling HTTPRoutes

  datatype ParentRef = ParentRef(
    group: Option<string>, kind: Option<string>, ns: Option<string>, name: string, section: Option<string>)

  datatype ParentStatus = ParentStatus(parent: ParentRef, conditions: seq<(string, string)>)   // type, status

  datatype PathSpec = PathSpec(kind: Option<string>, value: Option<string>)

  datatype BackendRef = BackendRef(name: string, ns: Option<string>, port: Option<int>)

  datatype RouteRule = RouteRule(matches: seq<Option<PathSpec>>, refs: seq<BackendRef>)

  datatype Route = Route(ns: string, parents: seq<ParentRef>, rules: seq<RouteRule>, status: seq<ParentStatus>)

  datatype GatewayName = GatewayName(ns: string, name: string)

  const GATEWAY_GROUP: string := "gateway.networking.k8s.io"

  function NsOr(ns: Option<string>, default: string): string {
    if ns.Some? then ns.value else default
  }

  function ConvertPath(p: Option<PathSpec>): PathMatch {
    if p.None? then PathMatch(Prefix, "/")
    else
      PathMatch(if p.value.kind == Some("Exact") then Exact else Prefix,
                if p.value.value.Some? then p.value.value.value else "/")
  }

  function ConvertBackend(ref: BackendRef, routeNs: string): Backend {
    Backend(NsOr(ref.ns, routeNs), ref.name, if ref.port.Some? then ref.port.value else 0)
  }

  function MatchesOf(r: RouteRule): seq<PathMatch> {
    if r.matches == [] then [PathMatch(Prefix, "/")]
    else seq(|r.matches|, i requires 0 <= i < |r.matches| => ConvertPath(r.matches[i]))
  }

  function BackendsOf(r: RouteRule, routeNs: string): seq<Backend> {
    seq(|r.refs|, i requires 0 <= i < |r.refs| => ConvertBackend(r.refs[i], routeNs))
  }

  predicate ParentNames(p: ParentRef, routeNs: string, gw: GatewayName) {
    p.name == gw.name && NsOr(p.ns, routeNs) == gw.ns
  }

  /** The router's test on one parentRef. */
  predicate RefTargets(p: ParentRef, routeNs: string, gw: GatewayName) {
    && ParentNames(p, routeNs, gw)
    && (p.kind.None? || p.kind.value == "Gateway") && (p.group.None? || p.group.value == GATEWAY_GROUP)
  }

  predicate Targets(r: Route, gw: GatewayName) {
    exists i | 0 <= i < |r.parents| :: RefTargets(r.parents[i], r.ns, gw)
  }

  /** The first ResolvedRefs condition among the parent statuses naming the Gateway decides; none means no. */
  function FirstResolved(conditions: seq<(string, string)>): Option<bool> {
    if conditions == [] then None
    else if conditions[0].0 == "ResolvedRefs" then Some(conditions[0].1 == "True")
    else FirstResolved(conditions[1..])
  }

  predicate RefsResolved(status: seq<ParentStatus>, routeNs: string, gw: GatewayName) {
    if status == [] then false
    else
      var own := if ParentNames(status[0].parent, routeNs, gw) then FirstResolved(status[0].conditions) else None;
      if own.Some? then own.value else RefsResolved(status[1..], routeNs, gw)
  }

  function KeepOwnNs(bs: seq<Backend>, ns: string): seq<Backend> {
    if bs == [] then [] else KeepOwnNs(bs[..|bs| - 1], ns) + if bs[|bs| - 1].ns == ns then [bs[|bs| - 1]] else []
  }

  function RulesOf(r: Route): seq<Rule> {
    seq(|r.rules|, i requires 0 <= i < |r.rules| => Rule(MatchesOf(r.rules[i]), BackendsOf(r.rules[i], r.ns)))
  }

  /** Rules may be left with no backend at all; the matcher skips them. */
  function Dropped(rules: seq<Rule>, ns: string): seq<Rule> {
    seq(|rules|, i requires 0 <= i < |rules| => rules[i].(backends := KeepOwnNs(rules[i].backends, ns)))
  }

  /** What one route compiles to for one Gateway. */
  function RouteRules(gw: GatewayName): Route -> seq<Rule> {
    r => if !Targets(r, gw) then []
         else if RefsResolved(r.status, r.ns, gw) then RulesOf(r)
         else Dropped(RulesOf(r), r.ns)
  }

  function Compiled(routes: seq<Route>, gw: GatewayName): seq<Rule> {
    Collect(RouteRules(gw), routes)
  }

  // ---------------------------------------------------------------- what a conversion means

  /** A match converted from a path: Exact only if it says so, a given value as it is, otherwise the prefix "/". */
  predicate Reads(m: PathMatch, p: Option<PathSpec>) {
    && (m.kind == Exact <==> p.Some? && p.value.kind == Some("Exact")) && m.kind != OtherType
    && (p.Some? && p.value.value.Some? ==> m.value == p.value.value.value)
    && (p.None? || p.value.value.None? ==> m.value == "/")
  }

  /** The backend a reference asks for: the namespace defaults to the route's, the port to zero. */
  predicate AsksFor(ref: BackendRef, routeNs: string, b: Backend) {
    && b.name == ref.name
    && (ref.ns.Some? ==> b.ns == ref.ns.value) && (ref.ns.None? ==> b.ns == routeNs)
    && (ref.port.Some? ==> b.port == ref.port.value) && (ref.port.None? ==> b.port == 0)
  }

  method ConvertMatches(r: RouteRule) returns (out: seq<PathMatch>)
    ensures out == MatchesOf(r)
    ensures r.matches == [] ==> out == [PathMatch(Prefix, "/")]
    ensures r.matches != [] ==> |out| == |r.matches| && forall i | 0 <= i < |out| :: Reads(out[i], r.matches[i])
  {
    if |r.matches| == 0 {
      return [PathMatch(Prefix, "/")];
    }
    out := [];
    for i := 0 to |r.matches|
      invariant out == MatchesOf(r)[..i]
    {
      out := out + [ConvertPath(r.matches[i])];
    }
  }

  method ConvertBackends(r: RouteRule, routeNs: string) returns (out: seq<Backend>)
    ensures out == BackendsOf(r, routeNs)
    ensures |out| == |r.refs| && forall k | 0 <= k < |out| :: AsksFor(r.refs[k], routeNs, out[k])
  {
    out := [];
    for i := 0 to |r.refs|
      invariant out == BackendsOf(r, routeNs)[..i]
    {
      out := out + [ConvertBackend(r.refs[i], routeNs)];
    }
  }

  method RulesFromHTTPRoute(r: Route) returns (rules: seq<Rule>)
    ensures rules == RulesOf(r)
  {
    rules := [];
    for i := 0 to |r.rules|
      invariant rules == RulesOf(r)[..i]
    {
      var matches := ConvertMatches(r.rules[i]);
      var backends := ConvertBackends(r.rules[i], r.ns);
      rules := rules + [Rule(matches, backends)];
    }
  }

  method DropCrossNsBackends(rules: seq<Rule>, routeNs: string) returns (out: seq<Rule>)
    ensures out == Dropped(rules, routeNs)
  {
    out := [];
    for n := 0 to |rules|
      invariant out == Dropped(rules, routeNs)[..n]
    {
      var bs := rules[n].backends;
      var kept: seq<Backend> := [];
      for i := 0 to |bs|
        invariant kept == KeepOwnNs(bs[..i], routeNs)
      {
        assert bs[..i + 1][..i] == bs[..i];
        if bs[i].ns == routeNs {
          kept := kept + [bs[i]];
        }
      }
      assert bs[..|bs|] == bs;
      out := out + [rules[n].(backends := kept)];
    }
  }

  method RulesForGateway(routes: seq<Route>, gw: GatewayName) returns (rules: seq<Rule>)
    ensures rules == Compiled(routes, gw)
  {
    rules := [];
    for n := 0 to |routes|
      invariant rules == Compiled(routes[..n], gw)
    {
      assert routes[..n + 1] == routes[..n] + [routes[n]];
      CollectStep(RouteRules(gw), routes[..n], routes[n]);
      var route := routes[n];
      if !Targets(route, gw) { continue; }
      var own := RulesFromHTTPRoute(route);
      if !RefsResolved(route.status, route.ns, gw) {
        own := DropCrossNsBackends(own, route.ns);
      }
      rules := rules + own;
    }
    assert routes[..|routes|] == routes;
  }

  // ---------------------------------------------------------------- where a chosen backend comes from

  /** The parent is the Gateway; its namespace defaults to the route's. */
  predicate Named(p: ParentRef, routeNs: string, gw: GatewayName) {
    p.name == gw.name && (p.ns.Some? ==> p.ns.value == gw.ns) && (p.ns.None? ==> routeNs == gw.ns)
  }

  /** Parent reference `p` of the route names the Gateway, and no other group or kind. */
  predicate Addresses(r: Route, gw: GatewayName, p: int) {
    && 0 <= p < |r.parents| && Named(r.parents[p], r.ns, gw)
    && (r.parents[p].kind.Some? ==> r.parents[p].kind.value == "Gateway")
    && (r.parents[p].group.Some? ==> r.parents[p].group.value == "gateway.networking.k8s.io")
  }

  /** Condition `c` of parent status `s` is the first ResolvedRefs among the parents that are the Gateway. */
  predicate FirstCondition(status: seq<ParentStatus>, routeNs: string, gw: GatewayName, s: int, c: int) {
    && 0 <= s < |status| && 0 <= c < |status[s].conditions|
    && Named(status[s].parent, routeNs, gw) && status[s].conditions[c].0 == "ResolvedRefs"
    && (forall d | 0 <= d < c :: status[s].conditions[d].0 != "ResolvedRefs")
    && forall q, d | 0 <= q < s && Named(status[q].parent, routeNs, gw) && 0 <= d < |status[q].conditions| ::
         status[q].conditions[d].0 != "ResolvedRefs"
  }

  ghost predicate Resolved(status: seq<ParentStatus>, routeNs: string, gw: GatewayName) {
    exists s, c :: FirstCondition(status, routeNs, gw, s, c) && status[s].conditions[c].1 == "True"
  }

  /** Reference `k` of rule `i` asks for `b`, on a route for the Gateway; a foreign `b` needs resolved references. */
  ghost predicate Offers(r: Route, gw: GatewayName, i: int, k: int, b: Backend) {
    && (exists p :: Addresses(r, gw, p))
    && 0 <= i < |r.rules| && 0 <= k < |r.rules[i].refs| && AsksFor(r.rules[i].refs[k], r.ns, b)
    && (b.ns == r.ns || Resolved(r.status, r.ns, gw))
  }

  ghost predicate Authorized(routes: seq<Route>, gw: GatewayName, b: Backend) {
    exists r, i, k :: r in routes && Offers(r, gw, i, k, b)
  }

  lemma TargetsExactly(r: Route, gw: GatewayName)
    ensures Targets(r, gw) <==> exists p :: Addresses(r, gw, p)
  {
    if Targets(r, gw) {
      var p :| 0 <= p < |r.parents| && RefTargets(r.parents[p], r.ns, gw);
      assert Addresses(r, gw, p);
    }
    forall p | Addresses(r, gw, p)
      ensures Targets(r, gw)
    {
      assert RefTargets(r.parents[p], r.ns, gw);
    }
  }

  lemma {:induction false} FirstResolvedAt(conditions: seq<(string, string)>) returns (c: nat)
    ensures c <= |conditions| && forall d | 0 <= d < c :: conditions[d].0 != "ResolvedRefs"
    ensures FirstResolved(conditions).None? <==> c == |conditions|
    ensures c < |conditions| ==>
              conditions[c].0 == "ResolvedRefs" && FirstResolved(conditions) == Some(conditions[c].1 == "True")
  {
    c := 0;
    if conditions != [] && conditions[0].0 != "ResolvedRefs" {
      c := FirstResolvedAt(conditions[1..]);
      c := c + 1;
    }
  }

  /** References count as resolved exactly when the first ResolvedRefs condition about the Gateway says "True". */
  lemma {:induction false} RefsResolvedExactly(status: seq<ParentStatus>, routeNs: string, gw: GatewayName)
    ensures RefsResolved(status, routeNs, gw) <==> Resolved(status, routeNs, gw)
  {
    if status != [] {
      var named := Named(status[0].parent, routeNs, gw);
      var c := FirstResolvedAt(status[0].conditions);
      if named && c < |status[0].conditions| {
        assert FirstCondition(status, routeNs, gw, 0, c);
        assert forall s, d | FirstCondition(status, routeNs, gw, s, d) :: s == 0 && d == c;
      } else {
        RefsResolvedExactly(status[1..], routeNs, gw);
        FirstConditionOnward(status, routeNs, gw);
      }
    }
  }

  /** A first status without the condition decides nothing. */
  lemma FirstConditionOnward(status: seq<ParentStatus>, routeNs: string, gw: GatewayName)
    requires status != []
    requires Named(status[0].parent, routeNs, gw) ==>
               forall d | 0 <= d < |status[0].conditions| :: status[0].conditions[d].0 != "ResolvedRefs"
    ensures Resolved(status, routeNs, gw) <==> Resolved(status[1..], routeNs, gw)
  {
    var rest := status[1..];
    forall s, c
      ensures FirstCondition(status, routeNs, gw, s + 1, c) <==> FirstCondition(rest, routeNs, gw, s, c)
    {
      assert forall q | 0 <= q < |rest| :: rest[q] == status[q + 1];
    }
    if Resolved(status, routeNs, gw) {
      var s, c :| FirstCondition(status, routeNs, gw, s, c) && status[s].conditions[c].1 == "True";
      assert FirstCondition(status, routeNs, gw, s - 1 + 1, c);
    }
    if Resolved(rest, routeNs, gw) {
      var s, c :| FirstCondition(rest, routeNs, gw, s, c) && rest[s].conditions[c].1 == "True";
      assert FirstCondition(status, routeNs, gw, s + 1, c);
    }
  }

  /** Dropping keeps exactly the backends of the namespace. */
  lemma {:induction false} KeptBackends(bs: seq<Backend>, ns: string, b: Backend)
    ensures b in KeepOwnNs(bs, ns) <==> b in bs && b.ns == ns
  {
    if bs != [] {
      var init, last := bs[..|bs| - 1], bs[|bs| - 1];
      KeptBackends(init, ns, b);
      assert bs == init + [last];
    }
  }

  /** In their order. */
  lemma {:induction false} KeptInOrder(s: seq<Backend>, t: seq<Backend>, ns: string)
    ensures KeepOwnNs(s + t, ns) == KeepOwnNs(s, ns) + KeepOwnNs(t, ns)
    ensures |t| == 1 ==> KeepOwnNs(t, ns) == if t[0].ns == ns then t else []
  {
    if t == [] {
      assert s + t == s;
    } else {
      assert (s + t)[..|s + t| - 1] == s + t[..|t| - 1];
      KeptInOrder(s, t[..|t| - 1], ns);
    }
  }

  lemma ConversionExactly(ref: BackendRef, routeNs: string, b: Backend)
    ensures b == ConvertBackend(ref, routeNs) <==> AsksFor(ref, routeNs, b)
  {
  }

  /** One rule of a route for the Gateway: its matches, and which backends it keeps. */
  lemma RuleCompiles(r: Route, gw: GatewayName, i: nat, b: Backend)
    requires i < |r.rules| && exists p :: Addresses(r, gw, p)
    ensures |RouteRules(gw)(r)| == |r.rules| && RouteRules(gw)(r)[i].matches == MatchesOf(r.rules[i])
    ensures b in RouteRules(gw)(r)[i].backends <==> exists k :: Offers(r, gw, i, k, b)
  {
    hide Resolved, Addresses, RefsResolved;
    TargetsExactly(r, gw);
    RefsResolvedExactly(r.status, r.ns, gw);
    var bs := BackendsOf(r.rules[i], r.ns);
    KeptBackends(bs, r.ns, b);
    if b in bs && (b.ns == r.ns || Resolved(r.status, r.ns, gw)) {
      var k :| 0 <= k < |bs| && bs[k] == b;
      ConversionExactly(r.rules[i].refs[k], r.ns, b);
      assert Offers(r, gw, i, k, b);
    }
    forall k | Offers(r, gw, i, k, b)
      ensures b in bs && (b.ns == r.ns || Resolved(r.status, r.ns, gw))
    {
      ConversionExactly(r.rules[i].refs[k], r.ns, b);
      assert bs[k] == b;
    }
  }

  /** The table is what the routes compile to, one after another. */
  lemma CompiledAt(routes: seq<Route>, gw: GatewayName, n: nat)
    requires n < |routes|
    ensures Compiled(routes, gw) ==
            Compiled(routes[..n], gw) + RouteRules(gw)(routes[n]) + Compiled(routes[n + 1..], gw)
  {
    assert routes == routes[..n] + [routes[n]] + routes[n + 1..];
    CollectConcat(RouteRules(gw), routes[..n] + [routes[n]], routes[n + 1..]);
    CollectStep(RouteRules(gw), routes[..n], routes[n]);
  }

  /** Routes that do not address the Gateway compile to nothing. */
  lemma OtherRoutesCompileToNothing(r: Route, gw: GatewayName)
    ensures (exists p :: Addresses(r, gw, p)) || RouteRules(gw)(r) == []
  {
    TargetsExactly(r, gw);
  }

  lemma {:induction false} RuleOfTable(routes: seq<Route>, gw: GatewayName, rule: Rule) returns (n: nat, i: nat)
    requires rule in Compiled(routes, gw)
    ensures n < |routes| && i < |RouteRules(gw)(routes[n])| && RouteRules(gw)(routes[n])[i] == rule
  {
    var init, last := routes[..|routes| - 1], routes[|routes| - 1];
    if rule in Compiled(init, gw) {
      n, i := RuleOfTable(init, gw, rule);
    } else {
      n := |routes| - 1;
      i :| 0 <= i < |RouteRules(gw)(last)| && RouteRules(gw)(last)[i] == rule;
    }
  }

  /**
   * The backends in the table are exactly the authorized ones: nothing foreign without resolved references,
   * and no local or resolved reference is lost.
   */
  lemma CompiledBackendsAuthorized(routes: seq<Route>, gw: GatewayName, b: Backend)
    ensures (exists rule :: rule in Compiled(routes, gw) && b in rule.backends) <==> Authorized(routes, gw, b)
  {
    hide Offers, RouteRules, Addresses;
    forall rule | rule in Compiled(routes, gw) && b in rule.backends
      ensures Authorized(routes, gw, b)
    {
      var n, i := RuleOfTable(routes, gw, rule);
      OtherRoutesCompileToNothing(routes[n], gw);
      RulesCount(routes[n], gw);
      RuleCompiles(routes[n], gw, i, b);
    }
    forall r, i, k | r in routes && Offers(r, gw, i, k, b)
      ensures exists rule :: rule in Compiled(routes, gw) && b in rule.backends
    {
      OfferedRule(r, gw, i, k, b);
      RuleCompiles(r, gw, i, b);
      var n :| 0 <= n < |routes| && routes[n] == r;
      CompiledAt(routes, gw, n);
      assert RouteRules(gw)(r)[i] in Compiled(routes, gw);
    }
  }

  lemma RulesCount(r: Route, gw: GatewayName)
    ensures |RouteRules(gw)(r)| == if exists p :: Addresses(r, gw, p) then |r.rules| else 0
  {
    hide Addresses;
    TargetsExactly(r, gw);
  }

  lemma OfferedRule(r: Route, gw: GatewayName, i: int, k: int, b: Backend)
    requires Offers(r, gw, i, k, b)
    ensures 0 <= i < |r.rules| && exists p :: Addresses(r, gw, p)
  {
  }

  lemma {:induction false} CandidateOfRule(rules: seq<Rule>, c: Candidate)
    requires c in Candidates(rules)
    ensures exists rule ::
      rule in rules && rule.backends != [] && c.backend == rule.backends[0] && c.path in rule.matches
  {
    var init, last := rules[..|rules| - 1], rules[|rules| - 1];
    if c in Candidates(init) {
      CandidateOfRule(init, c);
    } else {
      assert c in RuleCandidates(last);
      assert last in rules && last.backends != [] && c.backend == last.backends[0] && c.path in last.matches;
    }
  }

  /** For any routes and any path, the backend a request is sent to is an authorized one. */
  method RouteRequest(routes: seq<Route>, gw: GatewayName, path: string) returns (b: Backend, found: bool)
    ensures found ==> Authorized(routes, gw, b)
    ensures found ==> exists n, k ::
      Chosen(Compiled(routes, gw), path, n, k) && Compiled(routes, gw)[n].backends[0] == b
    ensures found ==> exists w ::
      Wins(Candidates(Compiled(routes, gw)), path, w) && Candidates(Compiled(routes, gw))[w].backend == b
    ensures !found ==> forall i | 0 <= i < |Candidates(Compiled(routes, gw))| ::
      !PathMatches(Candidates(Compiled(routes, gw))[i].path, path)
  {
    var rules := RulesForGateway(routes, gw);
    ghost var w;
    b, found, w := Match(rules, path);
    if found {
      CandidateOfRule(rules, Candidates(rules)[w]);
      ghost var rule :| rule in rules && rule.backends != [] && b == rule.backends[0];
      assert b in rule.backends;
      CompiledBackendsAuthorized(routes, gw, b);
    }
  }

  /**
   * Two route lists compiled together choose as the two tables do, whether both have a match, one of them or
   * none: the better winner, the left one on a tie.
   */
  lemma RouteListsCompose(
    left: seq<Route>, right: seq<Route>, gw: GatewayName, path: string, a: Option<nat>, b: Option<nat>)
    requires Outcome(Candidates(Compiled(left, gw)), path, a) && Outcome(Candidates(Compiled(right, gw)), path, b)
    ensures var cs, ds := Candidates(Compiled(left, gw)), Candidates(Compiled(right, gw));
            && (a.Some? ==> a.value < |cs|) && (b.Some? ==> b.value < |ds|)
            && Outcome(Candidates(Compiled(left + right, gw)), path, Better(cs, ds, a, b))
  {
    hide Outcome, Better;
    CollectConcat(RouteRules(gw), left, right);
    CollectConcat(RuleCandidates, Compiled(left, gw), Compiled(right, gw));
    ConcatenationOutcome(Candidates(Compiled(left, gw)), Candidates(Compiled(right, gw)), path, a, b);
  }
}
