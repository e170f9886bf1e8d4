/** What cleanup leaves behind, for every manager class and every state. */
module TdCleanup {
  import opened Wrappers
  import opened CloudGraph
  import opened TdResources
  import opened TdState

  // ---------- What every call keeps ----------

  /** Tracked resources are the manager's own, each in the attribute of its kind. */
  ghost predicate TrackedOk(cfg: Config, st: State) {
    forall a :: a in st.tracked ==> Owned(cfg, st.tracked[a]) && AttrOf(st.tracked[a].kind) == a
  }

  ghost predicate Sound(cfg: Config, st: State) {
    WellTyped(cfg, st.cloud) && TrackedOk(cfg, st)
  }

  lemma TrackedRefs(cfg: Config, st: State, k: Kind, attrs: set<Kind>)
    requires TrackedOk(cfg, st)
    requires forall a :: a in attrs ==> MayRefer(k, a) && (a == TargetGrpcProxy ==> MayRefer(k, TargetHttpProxy))
    ensures GoodContent(cfg, k, Refs(st, attrs))
  {
  }

  predicate IsPatchOrRoute(req: Request) {
    req.NewGrpcRoute? || req.PatchBackends? || req.ApplyClientTls? || req.NewEndpointPolicy? || req.PatchUrlMap?
  }

  lemma PreparedRefsPatch(cfg: Config, st: State, req: Request, reply: Reply)
    requires Sound(cfg, st) && Good(cfg, Ask(req, reply)) && IsPatchOrRoute(req)
    ensures var call := Prepare(cfg, st, req);
            call.Some? && call.value.kind in Plan(cfg) ==> GoodContent(cfg, call.value.kind, call.value.refs)
  {
    match req {
      case NewGrpcRoute => TrackedRefs(cfg, st, GrpcRoute, {BackendService, MeshKind(cfg)});
      case NewEndpointPolicy => TrackedRefs(cfg, st, EndpointPolicy, {ServerTlsPolicy, AuthzPolicy});
      case PatchBackends(bs, refs) =>
        if Prepare(cfg, st, req).Some? && bs in Plan(cfg) { PatchedRefs(cfg, st, bs, refs); }
      case ApplyClientTls =>
        TrackedRefs(cfg, st, BackendService, {ClientTlsPolicy});
        if Prepare(cfg, st, req).Some? && BackendService in Plan(cfg) { PatchedRefs(cfg, st, BackendService, {}); }
      case PatchUrlMap(service) =>
    }
  }

  /** The references of a prepared call are ones its resource may have. */
  lemma PreparedRefs(cfg: Config, st: State, req: Request, reply: Reply)
    requires Sound(cfg, st) && Good(cfg, Ask(req, reply))
    ensures var call := Prepare(cfg, st, req);
            call.Some? && call.value.kind in Plan(cfg) ==> GoodContent(cfg, call.value.kind, call.value.refs)
  {
    if IsPatchOrRoute(req) {
      PreparedRefsPatch(cfg, st, req, reply);
      return;
    }
    match req {
      case NewBackendService(p, tls) =>
        TrackedRefs(cfg, st, BackendService, if tls then {HealthCheck, ClientTlsPolicy} else {HealthCheck});
      case NewAltBackendService => TrackedRefs(cfg, st, AltBackendService, {HealthCheck});
      case NewAffinityBackendService => TrackedRefs(cfg, st, AffinityBackendService, {HealthCheck});
      case NewUrlMap => TrackedRefs(cfg, st, UrlMap, {BackendService});
      case NewAltUrlMap(service) => TrackedRefs(cfg, st, AltUrlMap, {AltBackendService});
      case NewTargetProxy =>
        TrackedRefs(cfg, st, TargetHttpProxy, {UrlMap});
        TrackedRefs(cfg, st, TargetGrpcProxy, {UrlMap});
      case NewTargetProxyIpv6 => TrackedRefs(cfg, st, TargetProxyIpv6, {UrlMap});
      case NewAltTargetProxy => TrackedRefs(cfg, st, AltTargetProxy, {AltUrlMap});
      case NewForwardingRule => TrackedRefs(cfg, st, ForwardingRule, {TargetGrpcProxy});
      case NewForwardingRuleIpv6 => TrackedRefs(cfg, st, ForwardingRuleIpv6, {TargetProxyIpv6});
      case NewAltForwardingRule => TrackedRefs(cfg, st, AltForwardingRule, {AltTargetProxy});
      case _ =>
    }
  }

  lemma PatchedRefs(cfg: Config, st: State, bs: Kind, refs: set<Key>)
    requires Sound(cfg, st) && IsBackendService(bs) && GoodContent(cfg, BackendService, refs)
    requires bs in Plan(cfg) && Created(cfg, bs) in st.cloud
    ensures GoodContent(cfg, bs, st.cloud[Created(cfg, bs)] + refs)
  {
  }

  lemma SoundUpdate(cfg: Config, st: State, kind: Kind, refs: set<Key>)
    requires Sound(cfg, st) && kind in Plan(cfg)
    requires GoodContent(cfg, kind, refs)
    ensures WellTyped(cfg, st.cloud[Created(cfg, kind) := refs])
  {
    PlanAscending(cfg);
    forall t | t in refs ensures t.kind != kind && !t.kind.ForwardingRuleIpv6? {
      ReferencesAscend(kind, t.kind);
    }
  }

  lemma MakeCallKeepsSound(cfg: Config, st: State, call: ApiCall, reply: Reply, protocol: Protocol)
    requires Sound(cfg, st) && (call.kind in Plan(cfg) ==> GoodContent(cfg, call.kind, call.refs))
    ensures Sound(cfg, MakeCall(cfg, st, call, reply, protocol))
  {
    if call.kind in Plan(cfg) {
      SoundUpdate(cfg, st, call.kind, call.refs);
      assert AttrOf(Created(cfg, call.kind).kind) == AttrOf(call.kind);
    }
  }

  lemma DoKeepsSound(cfg: Config, st: State, op: Op)
    requires Sound(cfg, st) && Good(cfg, op)
    ensures Sound(cfg, Do(cfg, st, op))
  {
    match op {
      case Ask(req, reply) =>
        PreparedRefs(cfg, st, req, reply);
        var ready := BeforeCall(st, req);
        assert Sound(cfg, ready);
        var call := Prepare(cfg, st, req);
        if call.Some? {
          MakeCallKeepsSound(cfg, ready, call.value, reply,
                             if req.NewBackendService? then req.protocol else st.protocol);
        }
      case Remove(k, force) =>
    }
  }

  lemma {:induction false} ExecuteKeepsSound(cfg: Config, st: State, ops: seq<Op>)
    requires Sound(cfg, st) && forall op :: op in ops ==> Good(cfg, op)
    ensures Sound(cfg, Execute(cfg, st, ops))
  {
    if ops != [] {
      ExecuteKeepsSound(cfg, st, ops[..|ops| - 1]);
      DoKeepsSound(cfg, Execute(cfg, st, ops[..|ops| - 1]), ops[|ops| - 1]);
    }
  }

  lemma ReachableIsSound(cfg: Config, st: State)
    requires Reachable(cfg, st)
    ensures Sound(cfg, st)
  {
    var cloud0, ops :| ReachedBy(cfg, cloud0, ops, st);
    ExecuteKeepsSound(cfg, NewManager(cloud0), ops);
  }

  // ---------- Which deletes a cleanup sends ----------

  /** The kinds whose delete calls are actually made, in order. */
  function Issued(cfg: Config, st: State, kinds: seq<Kind>, force: bool): seq<Kind> {
    if kinds == [] then []
    else
      var front := kinds[..|kinds| - 1];
      var k := kinds[|kinds| - 1];
      Issued(cfg, st, front, force)
      + (if Deletes(RunDeletes(cfg, st, front, force), k, force) then [k] else [])
  }

  lemma KeysOfAppend(cfg: Config, a: seq<Kind>, b: seq<Kind>)
    ensures KeysOf(cfg, a + b) == KeysOf(cfg, a) + KeysOf(cfg, b)
  {
  }

  lemma {:induction false} RunDeletesIsDeleteAll(cfg: Config, st: State, kinds: seq<Kind>, force: bool)
    ensures RunDeletes(cfg, st, kinds, force).cloud == DeleteAll(st.cloud, KeysOf(cfg, Issued(cfg, st, kinds, force)))
  {
    if kinds != [] {
      var front, k := kinds[..|kinds| - 1], kinds[|kinds| - 1];
      RunDeletesIsDeleteAll(cfg, st, front, force);
      var before := Issued(cfg, st, front, force);
      if Deletes(RunDeletes(cfg, st, front, force), k, force) {
        KeysOfAppend(cfg, before, [k]);
        DeleteAllAppend(st.cloud, KeysOf(cfg, before), KeysOf(cfg, [k]));
        assert KeysOf(cfg, [k]) == [Deleted(cfg, k)];
      } else {
        assert before + [] == before;
      }
    }
  }

  lemma AscendingFront(front: seq<Kind>, last: Kind)
    requires Ascending(front + [last])
    ensures Ascending(front) && Within(front, 0, Rank(last))
  {
    var kinds := front + [last];
    forall i, j | 0 <= i < j < |kinds| ensures Rank(kinds[i]) < Rank(kinds[j]) {}
    assert forall i :: 0 <= i < |front| ==> front[i] == kinds[i];
    assert kinds[|front|] == last;
  }

  lemma {:induction false} IssuedIsSubsequence(cfg: Config, st: State, kinds: seq<Kind>, force: bool)
    ensures forall k :: k in Issued(cfg, st, kinds, force) ==> k in kinds
    ensures Ascending(kinds) ==> Ascending(Issued(cfg, st, kinds, force))
    ensures force ==> Issued(cfg, st, kinds, force) == kinds
  {
    if kinds != [] {
      var front := kinds[..|kinds| - 1];
      var last := kinds[|kinds| - 1];
      IssuedIsSubsequence(cfg, st, front, force);
      assert kinds == front + [last];
      if Ascending(kinds) {
        AscendingFront(front, last);
        AscendingAppend(Issued(cfg, st, front, force), [last], 0, Rank(last), Rank(last) + 1);
      }
    }
  }

  /** What a cleanup starting in `st` will delete: the tracked resources, the target proxy
      by the call for its own kind. */
  predicate Hit(st: State, k: Kind, force: bool) {
    force
    || (&& AttrOf(k) in st.tracked
        && (k == TargetHttpProxy ==> st.proxyIsHttp)
        && (k == TargetGrpcProxy ==> !st.proxyIsHttp))
  }

  lemma DeleteLeavesLater(cfg: Config, st: State, k: Kind, later: Kind)
    requires Rank(k) < Rank(later) < 22 && later != TargetGrpcProxy
    ensures var st' := DoDelete(cfg, st, k, false);
            && (AttrOf(later) in st'.tracked <==> AttrOf(later) in st.tracked)
            && (later == TargetHttpProxy ==> st'.proxyIsHttp == st.proxyIsHttp)
  {
    ClearsOnlyBelow(k, later);
  }

  lemma FrontBelow(kinds: seq<Kind>, k: Kind)
    requires kinds != [] && Ascending(kinds) && Within(kinds, 0, Rank(k))
    ensures var front, last := kinds[..|kinds| - 1], kinds[|kinds| - 1];
            Ascending(front) && Within(front, 0, Rank(k)) && Rank(last) < Rank(k)
  {
    assert kinds == kinds[..|kinds| - 1] + [kinds[|kinds| - 1]];
  }

  /** Earlier deletes of an ascending list leave the attribute of a later kind alone. */
  lemma {:induction false} TrackedLater(cfg: Config, st: State, kinds: seq<Kind>, k: Kind)
    requires Ascending(kinds) && Within(kinds, 0, Rank(k)) && Rank(k) < 22
    requires k != TargetGrpcProxy
    ensures var later := RunDeletes(cfg, st, kinds, false);
            && (AttrOf(k) in later.tracked <==> AttrOf(k) in st.tracked)
            && (k == TargetHttpProxy ==> later.proxyIsHttp == st.proxyIsHttp)
  {
    if kinds != [] {
      var front, last := kinds[..|kinds| - 1], kinds[|kinds| - 1];
      FrontBelow(kinds, k);
      TrackedLater(cfg, st, front, k);
      DeleteLeavesLater(cfg, RunDeletes(cfg, st, front, false), last, k);
    }
  }

  lemma ClearsOnlyBelow(k: Kind, later: Kind)
    requires Rank(k) < Rank(later) < 22 && later != TargetGrpcProxy
    ensures Clears(k) != AttrOf(later)
    ensures later == TargetHttpProxy ==> AttrOf(k) != TargetGrpcProxy
  {
  }

  /** When the gRPC delete of the proxy comes up, the proxy is still tracked exactly if it
      was tracked and is not an HTTP one. */
  lemma GrpcProxyLater(cfg: Config, st: State, kinds: seq<Kind>)
    requires kinds != [] && kinds[|kinds| - 1] == TargetHttpProxy && Ascending(kinds)
    ensures var later := RunDeletes(cfg, st, kinds, false);
            TargetGrpcProxy in later.tracked <==> TargetGrpcProxy in st.tracked && !st.proxyIsHttp
  {
    var front := kinds[..|kinds| - 1];
    assert kinds == front + [TargetHttpProxy];
    AscendingFront(front, TargetHttpProxy);
    TrackedLater(cfg, st, front, TargetHttpProxy);
  }

  lemma DeletesIffHit(cfg: Config, st: State, n: nat)
    requires n < |Plan(cfg)|
    ensures Deletes(RunDeletes(cfg, st, Plan(cfg)[..n], false), Plan(cfg)[n], false) <==> Hit(st, Plan(cfg)[n], false)
  {
    var front, last := Plan(cfg)[..n], Plan(cfg)[n];
    PlanAscending(cfg);
    PrefixAscending(Plan(cfg), n + 1);
    assert Plan(cfg)[..n + 1] == front + [last];
    AscendingFront(front, last);
    assert last in Plan(cfg);
    if last == TargetGrpcProxy {
      HttpProxyComesBefore(cfg, n);
      GrpcProxyLater(cfg, st, front);
    } else {
      TrackedLater(cfg, st, front, last);
    }
  }

  lemma PrefixAscending(kinds: seq<Kind>, n: nat)
    requires Ascending(kinds) && n <= |kinds|
    ensures Ascending(kinds[..n])
  {
  }

  lemma IssuedStep(cfg: Config, st: State, front: seq<Kind>, last: Kind, k: Kind)
    ensures k in Issued(cfg, st, front + [last], false)
            <==> k in Issued(cfg, st, front, false)
                 || (k == last && Deletes(RunDeletes(cfg, st, front, false), last, false))
  {
  }

  lemma {:induction false} IssuedIff(cfg: Config, st: State, plan: seq<Kind>, n: nat, k: Kind)
    requires n <= |plan|
    requires forall m :: 0 <= m < |plan| ==>
               (Deletes(RunDeletes(cfg, st, plan[..m], false), plan[m], false) <==> Hit(st, plan[m], false))
    ensures k in Issued(cfg, st, plan[..n], false) <==> k in plan[..n] && Hit(st, k, false)
  {
    if n > 0 {
      var front, last := plan[..n - 1], plan[n - 1];
      assert plan[..n] == front + [last];
      IssuedStep(cfg, st, front, last, k);
      IssuedIff(cfg, st, plan, n - 1, k);
    }
  }

  lemma NoKindTwice(kinds: seq<Kind>, i: nat, j: nat)
    requires Ascending(kinds) && i < |kinds| && j < |kinds| && kinds[i] == kinds[j]
    ensures i == j
  {
  }

  lemma HttpProxyComesBefore(cfg: Config, n: nat)
    requires n < |Plan(cfg)| && Plan(cfg)[n] == TargetGrpcProxy
    ensures n > 0 && Plan(cfg)[n - 1] == TargetHttpProxy
  {
    var plan := Plan(cfg);
    PlanAscending(cfg);
    assert FRONT_KINDS[2] == TargetHttpProxy && FRONT_KINDS[3] == TargetGrpcProxy;
    assert BasePlan(cfg)[2] == TargetHttpProxy && BasePlan(cfg)[3] == TargetGrpcProxy;
    var o := match cfg.manager case Plain => 0 case AppNet => 3 case Secure => 0 case Spiffe => 2 case CloudRun => 3;
    assert plan[o + 2] == BasePlan(cfg)[2] && plan[o + 3] == BasePlan(cfg)[3];
    NoKindTwice(plan, n, o + 3);
  }

  lemma IssuedByCleanup(cfg: Config, st: State, force: bool, k: Kind)
    ensures k in Issued(cfg, st, Plan(cfg), force) <==> k in Plan(cfg) && Hit(st, k, force)
  {
    var plan := Plan(cfg);
    if force {
      IssuedIsSubsequence(cfg, st, plan, force);
    } else {
      assert plan[..|plan|] == plan;
      forall m | 0 <= m < |plan|
        ensures Deletes(RunDeletes(cfg, st, plan[..m], false), plan[m], false) <==> Hit(st, plan[m], false)
      {
        DeletesIffHit(cfg, st, m);
      }
      IssuedIff(cfg, st, plan, |plan|, k);
    }
  }

  // ---------- Exactly what is left ----------

  function SentKeys(cfg: Config, st: State, force: bool): seq<Key> {
    KeysOf(cfg, Issued(cfg, st, Plan(cfg), force))
  }

  /** A cleanup goes through one reverse topological list, so what it leaves is exactly
      what an unlisted live resource can reach. */
  lemma CleanupExact(cfg: Config, st: State, force: bool)
    requires Sound(cfg, st)
    ensures ReverseTopological(st.cloud, SentKeys(cfg, st, force))
    ensures forall k :: k in Cleanup(cfg, st, force).cloud <==> Held(st.cloud, SentKeys(cfg, st, force), k)
    ensures SubGraph(Cleanup(cfg, st, force).cloud, st.cloud)
    ensures Cleanup(cfg, st, force).cloud == DeleteAll(st.cloud, SentKeys(cfg, st, force))
  {
    PlanAscending(cfg);
    IssuedIsSubsequence(cfg, st, Plan(cfg), force);
    RunDeletesIsDeleteAll(cfg, st, Plan(cfg), force);
    AscendingIsReverseTopological(cfg, st.cloud, Issued(cfg, st, Plan(cfg), force));
    DeleteAllExact(st.cloud, SentKeys(cfg, st, force));
  }

  /** The live resource will be deleted: its delete is sent, and sent to where it is. */
  predicate WillBeSent(cfg: Config, st: State, force: bool, k: Kind) {
    Hit(st, k, force) && DeleteLocation(cfg, k) == CreateLocation(cfg, k)
  }

  predicate AllSent(cfg: Config, st: State, force: bool) {
    forall k :: k in Plan(cfg) && Created(cfg, k) in st.cloud ==> WillBeSent(cfg, st, force, k)
  }

  predicate NothingLeft(cfg: Config, cloud: Cloud) {
    forall k :: k in cloud ==> !Owned(cfg, k)
  }

  lemma SentKeysAre(cfg: Config, st: State, force: bool, key: Key)
    requires Owned(cfg, key)
    ensures key in SentKeys(cfg, st, force) <==> WillBeSent(cfg, st, force, key.kind)
  {
    var kinds := Issued(cfg, st, Plan(cfg), force);
    IssuedByCleanup(cfg, st, force, key.kind);
    if WillBeSent(cfg, st, force, key.kind) {
      var i :| 0 <= i < |kinds| && kinds[i] == key.kind;
      assert SentKeys(cfg, st, force)[i] == key;
    }
  }

  lemma AllSentIsIsolated(cfg: Config, st: State, force: bool)
    requires Sound(cfg, st) && AllSent(cfg, st, force)
    ensures Isolated(st.cloud, SentKeys(cfg, st, force))
  {
    var ks := SentKeys(cfg, st, force);
    PlanAscending(cfg);
    IssuedIsSubsequence(cfg, st, Plan(cfg), force);
    forall r, t | r in st.cloud && r !in ks && t in ks ensures t !in st.cloud[r] {
      var i :| 0 <= i < |ks| && ks[i] == t;
      assert Issued(cfg, st, Plan(cfg), force)[i] == t.kind;
      assert Owned(cfg, t) || t == Deleted(cfg, ForwardingRuleIpv6);
      if Owned(cfg, r) { SentKeysAre(cfg, st, force, r); }
    }
  }
}
