/** Names generated for URL map test cases, and the URL map put together from them. */
module UrlMapNames {
  import opened Helpers

  predicate IsLower(c: char) { 'a' <= c <= 'z' }

  function UpperChar(c: char): char { if IsLower(c) then (c as int - 32) as char else c }

  /** An ASCII Python class name that starts with a capital letter. */
  predicate IsClassName(s: string) {
    s != "" && IsUpper(s[0]) && AllIdentifier(s)
  }

  predicate AllIdentifier(s: string) {
    forall c :: c in s ==> IsUpper(c) || IsLower(c) || '0' <= c <= '9' || c == '_'
  }

  function Expand(s: string): string {
    if s == "" then ""
    else (if IsUpper(s[0]) then ['-', LowerChar(s[0])] else [s[0]]) + Expand(s[1..])
  }

  /** Strips every leading dash, as `lstrip` does. */
  function StripDashes(s: string): string {
    if s != "" && s[0] == '-' then StripDashes(s[1..]) else s
  }

  /** `_split_camel` with its default delimiter. */
  function SplitCamel(s: string): string {
    StripDashes(Expand(s))
  }

  /** The inverse: a dash and the letter after it are one capital. */
  function Collapse(s: string): string {
    if s == "" then ""
    else if s[0] == '-' && |s| > 1 then [UpperChar(s[1])] + Collapse(s[2..])
    else [s[0]] + Collapse(s[1..])
  }

  function JoinCamel(t: string): string {
    Collapse("-" + t)
  }

  lemma {:induction false} CollapseExpand(s: string)
    requires AllIdentifier(s)
    ensures Collapse(Expand(s)) == s
  {
    if s != "" {
      var rest := s[1..];
      assert s[0] in s && forall c :: c in rest ==> c in s;
      CollapseExpand(rest);
      if IsUpper(s[0]) {
        var e := ['-', LowerChar(s[0])] + Expand(rest);
        assert e[2..] == Expand(rest);
      } else {
        var e := [s[0]] + Expand(rest);
        assert e[1..] == Expand(rest);
      }
    }
  }

  lemma SplitCamelIs(s: string)
    requires IsClassName(s)
    ensures "-" + SplitCamel(s) == Expand(s)
  {
    var e := ['-', LowerChar(s[0])] + Expand(s[1..]);
    assert Expand(s) == e;
    assert e[1..][0] != '-';
    assert StripDashes(e) == e[1..];
  }

  /** Splitting a class name can be undone. */
  lemma SplitCamelRoundTrip(s: string)
    requires IsClassName(s)
    ensures JoinCamel(SplitCamel(s)) == s
  {
    SplitCamelIs(s);
    CollapseExpand(s);
  }

  /** A class name of one word becomes that word with a small letter; `ClassNameParts` says how
      words are joined. */
  lemma SplitWord(c: string)
    requires IsClassName(c) && forall x :: x in c[1..] ==> !('A' <= x <= 'Z')
    ensures SplitCamel(c) == [(c[0] as int + 32) as char] + c[1..]
  {
    SplitCamelIs(c);
    ExpandSmall(c[1..]);
    assert Expand(c) == ['-', LowerChar(c[0])] + c[1..];
    assert SplitCamel(c) == Expand(c)[1..];
  }

  lemma {:induction false} ExpandSmall(s: string)
    requires forall x :: x in s ==> !('A' <= x <= 'Z')
    ensures Expand(s) == s
  {
    if s != "" {
      assert s[0] in s && forall x :: x in s[1..] ==> x in s;
      ExpandSmall(s[1..]);
    }
  }

  function Hostname(module_: string, className: string, port: string): string {
    module_ + "." + SplitCamel(className) + ":" + port
  }

  function PathMatcherName(module_: string, className: string): string {
    module_ + "-" + SplitCamel(className) + "-pm"
  }

  lemma {:induction false} ExpandHasNoDot(s: string)
    requires AllIdentifier(s)
    ensures '.' !in Expand(s)
  {
    if s != "" {
      assert s[0] in s && forall c :: c in s[1..] ==> c in s;
      ExpandHasNoDot(s[1..]);
    }
  }

  lemma SplitCamelHasNoDot(s: string)
    requires IsClassName(s)
    ensures '.' !in SplitCamel(s)
  {
    SplitCamelIs(s);
    ExpandHasNoDot(s);
    assert forall c :: c in SplitCamel(s) ==> c in "-" + SplitCamel(s);
  }

  lemma LastDotSplits(a: string, x: string, b: string, y: string)
    requires a + "." + x == b + "." + y && '.' !in x && '.' !in y
    ensures a == b && x == y
  {
    var s := a + "." + x;
    assert s[|a|] == '.' && s[|b|] == '.';
    assert forall i :: |a| < i < |s| ==> s[i] == x[i - |a| - 1];
    assert forall i :: |b| < i < |s| ==> s[i] == y[i - |b| - 1];
    assert |a| == |b|;
    assert s[..|a|] == a && s[..|b|] == b && s[|a| + 1..] == x && s[|b| + 1..] == y;
  }

  lemma SameTail(a: string, b: string, tail: string)
    requires a + tail == b + tail
    ensures a == b
  {
    assert |a + tail| == |b + tail|;
    assert a == (a + tail)[..|a|] && b == (b + tail)[..|b|];
  }

  lemma HostnameIs(module_: string, className: string, port: string)
    ensures Hostname(module_, className, port) == (module_ + "." + SplitCamel(className)) + (":" + port)
  {
  }

  /** For one port, different test cases get different hostnames, whatever dots, dashes or
      underscores their module names contain. */
  lemma HostnamesDiffer(m1: string, c1: string, m2: string, c2: string, port: string)
    requires IsClassName(c1) && IsClassName(c2)
    ensures Hostname(m1, c1, port) == Hostname(m2, c2, port) <==> m1 == m2 && c1 == c2
  {
    if Hostname(m1, c1, port) == Hostname(m2, c2, port) {
      HostnameIs(m1, c1, port);
      HostnameIs(m2, c2, port);
      SameTail(m1 + "." + SplitCamel(c1), m2 + "." + SplitCamel(c2), ":" + port);
      SplitCamelHasNoDot(c1);
      SplitCamelHasNoDot(c2);
      LastDotSplits(m1, SplitCamel(c1), m2, SplitCamel(c2));
      SplitCamelRoundTrip(c1);
      SplitCamelRoundTrip(c2);
    }
  }

  /** Path matcher names do tell the classes of one module apart ... */
  lemma PathMatchersOfOneModuleDiffer(m: string, c1: string, c2: string)
    requires IsClassName(c1) && IsClassName(c2)
    ensures PathMatcherName(m, c1) == PathMatcherName(m, c2) <==> c1 == c2
  {
    if PathMatcherName(m, c1) == PathMatcherName(m, c2) { SameModule(m, c1, m, c2); }
  }

  lemma {:induction false} ExpandAppend(a: string, b: string)
    ensures Expand(a + b) == Expand(a) + Expand(b)
  {
    if a == "" {
      assert a + b == b;
    } else {
      assert (a + b)[1..] == a[1..] + b;
      ExpandAppend(a[1..], b);
    }
  }

  lemma SliceBehind(head: string, tail: string, p: nat)
    requires |head| <= p <= |head| + |tail|
    ensures (head + tail)[..p] == head + tail[..p - |head|] && (head + tail)[p..] == tail[p - |head|..]
    ensures p < |head| + |tail| ==> (head + tail)[p] == tail[p - |head|]
  {
  }

  /** A dash in an expanded name is where a capital was. */
  lemma {:induction false} ExpandSplitsAtDash(c: string, p: nat) returns (k: nat)
    requires AllIdentifier(c) && p < |Expand(c)| && Expand(c)[p] == '-'
    ensures k < |c| && IsUpper(c[k])
    ensures Expand(c[..k]) == Expand(c)[..p] && Expand(c[k..]) == Expand(c)[p..]
  {
    assert c[0] in c && forall x :: x in c[1..] ==> x in c;
    var head := if IsUpper(c[0]) then ['-', LowerChar(c[0])] else [c[0]];
    assert Expand(c) == head + Expand(c[1..]);
    if p == 0 {
      k := 0;
      assert c[..0] == "" && c[0..] == c;
    } else {
      assert p >= |head|;
      SliceBehind(head, Expand(c[1..]), p);
      var l := ExpandSplitsAtDash(c[1..], p - |head|);
      k := l + 1;
      assert c[..k][1..] == c[1..][..l] && c[k..] == c[1..][l..];
    }
  }

  /** Moving the leading words of the class name into the module name. */
  predicate MovesWords(m1: string, c1: string, m2: string, c2: string, k: nat) {
    0 < k < |c1| && IsUpper(c1[k]) && c2 == c1[k..] && m2 == m1 + "-" + SplitCamel(c1[..k])
  }

  lemma ClassNameParts(c: string, k: nat)
    requires IsClassName(c) && 0 < k < |c| && IsUpper(c[k])
    ensures IsClassName(c[..k]) && IsClassName(c[k..])
    ensures SplitCamel(c) == SplitCamel(c[..k]) + "-" + SplitCamel(c[k..])
  {
    var a, b := c[..k], c[k..];
    assert forall x :: x in a || x in b ==> x in c;
    assert c == a + b;
    ExpandAppend(a, b);
    SplitCamelIs(c);
    SplitCamelIs(a);
    SplitCamelIs(b);
    assert SplitCamel(c) == ("-" + SplitCamel(c))[1..];
    assert ("-" + SplitCamel(a) + ("-" + SplitCamel(b)))[1..] == SplitCamel(a) + "-" + SplitCamel(b);
  }

  /** ... but not those of different modules: the dash that joins the parts also occurs
      inside them.  Two names agree exactly when the test cases do, or when one module name
      is the other with leading words of the class name moved over. */
  lemma PathMatcherNamesEqualIff(m1: string, c1: string, m2: string, c2: string)
    requires IsClassName(c1) && IsClassName(c2) && |m1| <= |m2|
    ensures PathMatcherName(m1, c1) == PathMatcherName(m2, c2)
            <==> (m1 == m2 && c1 == c2) || exists k: nat :: MovesWords(m1, c1, m2, c2, k)
  {
    if k: nat :| MovesWords(m1, c1, m2, c2, k) { MovedNamesAgree(m1, c1, m2, c2, k); }
    if PathMatcherName(m1, c1) == PathMatcherName(m2, c2) {
      if |m1| == |m2| {
        SameModule(m1, c1, m2, c2);
      } else {
        var k := WordsMoved(m1, c1, m2, c2);
      }
    }
  }

  lemma MovedNamesAgree(m1: string, c1: string, m2: string, c2: string, k: nat)
    requires IsClassName(c1) && MovesWords(m1, c1, m2, c2, k)
    ensures PathMatcherName(m1, c1) == PathMatcherName(m2, c2)
  {
    ClassNameParts(c1, k);
    var a, b := SplitCamel(c1[..k]), SplitCamel(c2);
    assert m1 + "-" + (a + "-" + b) == m1 + "-" + a + "-" + b;
  }

  lemma SameModule(m1: string, c1: string, m2: string, c2: string)
    requires IsClassName(c1) && IsClassName(c2) && |m1| == |m2|
    requires PathMatcherName(m1, c1) == PathMatcherName(m2, c2)
    ensures m1 == m2 && c1 == c2
  {
    PathMatcherNameIs(m1, c1);
    PathMatcherNameIs(m2, c2);
    SameTail(m1 + Expand(c1), m2 + Expand(c2), "-pm");
    Overlap(m1, Expand(c1), m2, Expand(c2));
    assert Expand(c1)[..0] == "" && Expand(c1)[0..] == Expand(c1);
    ExpandInjective(c1, c2);
  }

  lemma PathMatcherNameIs(m: string, c: string)
    requires IsClassName(c)
    ensures PathMatcherName(m, c) == (m + Expand(c)) + "-pm"
    ensures Expand(c) != "" && Expand(c)[0] == '-'
  {
    SplitCamelIs(c);
    assert m + ("-" + SplitCamel(c)) == m + "-" + SplitCamel(c);
  }

  /** Of two equal texts cut at different places, the part in between is in both. */
  lemma Overlap(a: string, x: string, b: string, y: string)
    requires a + x == b + y && |a| <= |b|
    ensures var p := |b| - |a|; p <= |x| && x[p..] == y && b == a + x[..p]
  {
    var s, p := a + x, |b| - |a|;
    assert |s| == |a| + |x| == |b| + |y|;
    assert x == s[|a|..] && y == s[|b|..] && b == s[..|b|] && a == s[..|a|];
  }

  lemma ExpandInjective(a: string, b: string)
    requires AllIdentifier(a) && AllIdentifier(b) && Expand(a) == Expand(b)
    ensures a == b
  {
    CollapseExpand(a);
    CollapseExpand(b);
  }

  lemma WordsMoved(m1: string, c1: string, m2: string, c2: string) returns (k: nat)
    requires IsClassName(c1) && IsClassName(c2) && |m1| < |m2|
    requires PathMatcherName(m1, c1) == PathMatcherName(m2, c2)
    ensures MovesWords(m1, c1, m2, c2, k)
  {
    PathMatcherNameIs(m1, c1);
    PathMatcherNameIs(m2, c2);
    SameTail(m1 + Expand(c1), m2 + Expand(c2), "-pm");
    Overlap(m1, Expand(c1), m2, Expand(c2));
    k := ExpandSplitsAtDash(c1, |m2| - |m1|);
    assert k > 0 by { assert c1[..0] == "" && Expand("") == ""; }
    ClassNameParts(c1, k);
    ExpandInjective(c1[k..], c2);
    SplitCamelIs(c1[..k]);
    assert m1 + ("-" + SplitCamel(c1[..k])) == m1 + "-" + SplitCamel(c1[..k]);
  }

  /** The names of a class of two words, spelled out. */
  lemma NamesOfTwoWords(m: string, a: string, b: string, port: string)
    requires IsClassName(a) && IsClassName(b)
    requires forall x :: x in a[1..] || x in b[1..] ==> !('A' <= x <= 'Z')
    ensures var words := [(a[0] as int + 32) as char] + a[1..] + "-" + [(b[0] as int + 32) as char] + b[1..];
            && Hostname(m, a + b, port) == m + "." + words + ":" + port
            && PathMatcherName(m, a + b) == m + "-" + words + "-pm"
  {
    var c := a + b;
    assert c[..|a|] == a && c[|a|..] == b && c[0] == a[0] && forall x :: x in c ==> x in a || x in b;
    ClassNameParts(c, |a|);
    SplitWord(a);
    SplitWord(b);
    assert SplitCamel(c) == [(a[0] as int + 32) as char] + a[1..] + "-" + [(b[0] as int + 32) as char] + b[1..];
  }

  /** Only classes with such names become test cases of the URL map. */
  predicate IsTracked(className: string) {
    "Test" <= className
  }

  const COLLIDING_CLASS := "TestATestB"

  lemma CollidingNames()
    ensures IsClassName(COLLIDING_CLASS) && IsTracked(COLLIDING_CLASS) && IsClassName("TestB") && IsTracked("TestB")
  {
  }

  lemma CollidingParts()
    ensures MovesWords("a", COLLIDING_CLASS, "a-test-a", "TestB", 5)
  {
    assert COLLIDING_CLASS[..5] == "TestA" && COLLIDING_CLASS[5..] == "TestB";
    SplitTestA();
  }

  /** Two test cases with one path matcher name: those of files a_test.py and a_test_a_test.py. */
  lemma PathMatchersCanCollide()
    ensures IsClassName(COLLIDING_CLASS) && IsTracked(COLLIDING_CLASS) && IsClassName("TestB") && IsTracked("TestB")
    ensures PathMatcherName("a", COLLIDING_CLASS) == PathMatcherName("a-test-a", "TestB")
  {
    CollidingNames();
    CollidingParts();
    MovedNamesAgree("a", COLLIDING_CLASS, "a-test-a", "TestB", 5);
  }

  lemma SplitTestA()
    ensures SplitCamel("TestA") == "test-a"
  {
    assert "TestA"[1..] == "estA" && "estA"[1..] == "stA" && "stA"[1..] == "tA" && "tA"[1..] == "A" && "A"[1..] == "";
    assert Expand("A") == "-a" && Expand("tA") == "t-a" && Expand("stA") == "st-a";
    assert Expand("estA") == "est-a" && Expand("TestA") == "-test-a";
    assert "-test-a"[1..] == "test-a";
  }

  // ---------- The aggregated URL map ----------

  datatype HostRule = HostRule(hosts: seq<string>, pathMatcher: string)

  datatype PathMatcher = PathMatcher(name: string, defaultService: string, routes: seq<string>)

  /** A test case: its names, and how it changes the pair generated for it. */
  datatype TestCase = TestCase(module_: string, className: string, change: (HostRule, PathMatcher) -> (HostRule, PathMatcher))

  function Generated(t: TestCase, port: string, service: string): (HostRule, PathMatcher) {
    (HostRule([Hostname(t.module_, t.className, port)], PathMatcherName(t.module_, t.className)),
     PathMatcher(PathMatcherName(t.module_, t.className), service, []))
  }

  function Changed(t: TestCase, port: string, service: string): (HostRule, PathMatcher) {
    var (rule, matcher) := Generated(t, port, service);
    t.change(rule, matcher)
  }

  /** A change is given a rule for the hostname alone and an empty matcher of the same name. */
  lemma ChangedIs(t: TestCase, port: string, service: string)
    ensures var name := PathMatcherName(t.module_, t.className);
            Changed(t, port, service)
            == t.change(HostRule([Hostname(t.module_, t.className, port)], name), PathMatcher(name, service, []))
  {
  }

  /** The pair has the names of the test case. */
  predicate HasNames(t: TestCase, port: string, rule: HostRule, matcher: PathMatcher) {
    && rule.hosts == [Hostname(t.module_, t.className, port)]
    && rule.pathMatcher == matcher.name == PathMatcherName(t.module_, t.className)
  }

  /** The change leaves the generated names in place. */
  predicate KeepsNames(t: TestCase, port: string, service: string) {
    HasNames(t, port, Changed(t, port, service).0, Changed(t, port, service).1)
  }

  /** The path matcher of every rule is there. */
  ghost predicate Resolve(rules: seq<HostRule>, matchers: seq<PathMatcher>) {
    forall r :: r in rules ==> exists p :: p in matchers && p.name == r.pathMatcher
  }

  /** A change that keeps the names keeps every rule's path matcher present. */
  lemma ChangeKeepsResolving(rules: seq<HostRule>, matchers: seq<PathMatcher>, t: TestCase, port: string, service: string)
    requires Resolve(rules, matchers) && KeepsNames(t, port, service)
    ensures Resolve(rules + [Changed(t, port, service).0], matchers + [Changed(t, port, service).1])
  {
    var (rule, matcher) := Changed(t, port, service);
    var all := matchers + [matcher];
    assert all[|matchers|] == matcher;
    assert forall p :: p in matchers ==> p in all;
    forall r | r in rules + [rule] ensures exists p :: p in all && p.name == r.pathMatcher {
      if r !in rules { assert matcher in all && matcher.name == r.pathMatcher; }
    }
  }

  class UrlMapChangeAggregator {
    const port: string
    const defaultService: string
    var hostRules: seq<HostRule>
    var pathMatchers: seq<PathMatcher>

    constructor (port: string, defaultService: string)
      ensures this.port == port && this.defaultService == defaultService
      ensures hostRules == [] && pathMatchers == []
    {
      this.port, this.defaultService := port, defaultService;
      hostRules, pathMatchers := [], [];
    }

    ghost predicate RulesResolve()
      reads this
    {
      Resolve(hostRules, pathMatchers)
    }

    method ApplyChange(t: TestCase)
      modifies `hostRules, `pathMatchers
      ensures hostRules == old(hostRules) + [Changed(t, port, defaultService).0]
      ensures pathMatchers == old(pathMatchers) + [Changed(t, port, defaultService).1]
    {
      var (rule, matcher) := Generated(t, port, defaultService);
      var (newRule, newMatcher) := t.change(rule, matcher);
      hostRules := hostRules + [newRule];
      pathMatchers := pathMatchers + [newMatcher];
    }

    /** All the changes of a run, one after the other. */
    method ApplyAll(ts: seq<TestCase>)
      requires hostRules == [] && pathMatchers == []
      requires forall t :: t in ts ==> KeepsNames(t, port, defaultService) && IsClassName(t.className)
      modifies `hostRules, `pathMatchers
      ensures RulesResolve()
      ensures |hostRules| == |ts| == |pathMatchers|
      ensures forall i :: 0 <= i < |ts| ==> HasNames(ts[i], port, hostRules[i], pathMatchers[i])
      ensures forall i, j :: 0 <= i < |ts| && 0 <= j < |ts| ==>
                (hostRules[i].hosts == hostRules[j].hosts
                 <==> ts[i].module_ == ts[j].module_ && ts[i].className == ts[j].className)
    {
      for n := 0 to |ts|
        invariant |hostRules| == n == |pathMatchers|
        invariant forall i :: 0 <= i < n ==> (hostRules[i], pathMatchers[i]) == Changed(ts[i], port, defaultService)
      {
        ApplyChange(ts[n]);
      }
      ChangesKeepNames(ts, hostRules, pathMatchers, port, defaultService);
      HostsTellApart(ts, hostRules, pathMatchers, port);
    }
  }

  lemma ChangesKeepNames(ts: seq<TestCase>, rules: seq<HostRule>, matchers: seq<PathMatcher>, port: string, service: string)
    requires |rules| == |ts| == |matchers| && forall t :: t in ts ==> KeepsNames(t, port, service)
    requires forall i :: 0 <= i < |ts| ==> (rules[i], matchers[i]) == Changed(ts[i], port, service)
    ensures forall i :: 0 <= i < |ts| ==> HasNames(ts[i], port, rules[i], matchers[i])
    ensures Resolve(rules, matchers)
  {
    forall i | 0 <= i < |ts| ensures HasNames(ts[i], port, rules[i], matchers[i]) {
      assert KeepsNames(ts[i], port, service);
    }
    forall r | r in rules ensures exists p :: p in matchers && p.name == r.pathMatcher {
      var i :| 0 <= i < |rules| && rules[i] == r;
      assert HasNames(ts[i], port, rules[i], matchers[i]) && matchers[i] in matchers;
    }
  }

  lemma HostsTellApart(ts: seq<TestCase>, rules: seq<HostRule>, matchers: seq<PathMatcher>, port: string)
    requires |rules| == |ts| == |matchers| && forall t :: t in ts ==> IsClassName(t.className)
    requires forall i :: 0 <= i < |ts| ==> HasNames(ts[i], port, rules[i], matchers[i])
    ensures forall i, j :: 0 <= i < |ts| && 0 <= j < |ts| ==>
              (rules[i].hosts == rules[j].hosts <==> ts[i].module_ == ts[j].module_ && ts[i].className == ts[j].className)
  {
    forall i, j | 0 <= i < |ts| && 0 <= j < |ts|
      ensures rules[i].hosts == rules[j].hosts
              <==> ts[i].module_ == ts[j].module_ && ts[i].className == ts[j].className
    {
      HostnamesDiffer(ts[i].module_, ts[i].className, ts[j].module_, ts[j].className, port);
      assert HasNames(ts[i], port, rules[i], matchers[i]) && HasNames(ts[j], port, rules[j], matchers[j]);
      assert rules[i].hosts[0] == Hostname(ts[i].module_, ts[i].className, port);
    }
  }
}
