/** The leak sweeper: forced cleanups by a Secure, an AppNet and a plain manager in turn. */
module TdSweep {
  import opened Wrappers
  import opened CloudGraph
  import opened TdResources
  import opened TdState
  import opened TdCleanup
  import opened TdTheorems
  import opened TdManager

  function SecureConfig(dualstack: bool): Config { Settings(Secure, None, dualstack, "") }

  /** The sweeper does not pass the dualstack flag on to its AppNet manager. */
  function AppNetConfig(): Config { Settings(AppNet, None, false, "") }

  function PlainConfig(dualstack: bool): Config { Settings(Plain, None, dualstack, "") }

  function AfterSecure(cloud: Cloud, dualstack: bool): Cloud {
    DeleteAll(cloud, KeysOf(SecureConfig(dualstack), Plan(SecureConfig(dualstack))))
  }

  function AfterAppNet(cloud: Cloud, dualstack: bool): Cloud {
    DeleteAll(AfterSecure(cloud, dualstack), KeysOf(AppNetConfig(), Plan(AppNetConfig())))
  }

  function Sweep(cloud: Cloud, dualstack: bool): Cloud {
    DeleteAll(AfterAppNet(cloud, dualstack), KeysOf(PlainConfig(dualstack), Plan(PlainConfig(dualstack))))
  }

  lemma ForcedCleanupIsDeleteAll(cfg: Config, st: State)
    ensures Cleanup(cfg, st, true).cloud == DeleteAll(st.cloud, KeysOf(cfg, Plan(cfg)))
  {
    RunDeletesIsDeleteAll(cfg, st, Plan(cfg), true);
    IssuedIsSubsequence(cfg, st, Plan(cfg), true);
  }

  /** `cleanup_td_for_gke`. */
  method CleanupTdForGke(cloud: CloudApi, dualstack: bool)
    modifies cloud
    ensures cloud.live == Sweep(old(cloud.live), dualstack)
  {
    var plainTd := new TrafficDirectorManager(PlainConfig(dualstack), cloud);
    var securityTd := new TrafficDirectorManager(SecureConfig(dualstack), cloud);
    var appnetTd := new TrafficDirectorManager(AppNetConfig(), cloud);
    ForcedCleanupIsDeleteAll(securityTd.cfg, securityTd.St());
    securityTd.Cleanup(true);
    ForcedCleanupIsDeleteAll(appnetTd.cfg, appnetTd.St());
    appnetTd.Cleanup(true);
    ForcedCleanupIsDeleteAll(plainTd.cfg, plainTd.St());
    plainTd.Cleanup(true);
  }

  // ---------- What the sweep leaves ----------

  /** The names the sweep goes after. */
  predicate SweepKind(k: Kind, dualstack: bool) {
    !k.Foreign? && !k.CloudRunMesh? && !k.Neg?
    && (k.ForwardingRuleIpv6? || k.TargetProxyIpv6? ==> dualstack)
  }

  predicate Swept(key: Key, dualstack: bool) {
    SweepKind(key.kind, dualstack) && key.location == Global
  }

  /** Global-scope leftovers, of any of the manager classes or several at once, with the
      references such resources have; nobody else refers to them. */
  ghost predicate Leftovers(cloud: Cloud, dualstack: bool) {
    forall r, t {:trigger t in cloud[r]} :: r in cloud && t in cloud[r] && (Swept(r, dualstack) || Swept(t, dualstack)) ==>
      Swept(r, dualstack) && MayRefer(r.kind, t.kind) && (Swept(t, dualstack) || t.kind.Foreign?)
  }

  const CLIENT_TLS := Key(ClientTlsPolicy, Global)

  predicate IsRoute(k: Kind) { k.HttpRoute? || k.GrpcRoute? }

  /** A live route refers to a live backend service that uses the client TLS policy. */
  ghost predicate RouteHoldsClientTls(cloud: Cloud) {
    CLIENT_TLS in cloud
    && exists r, b :: r in cloud && IsRoute(r.kind) && r.location == Global
                      && b in cloud && b in cloud[r] && IsBackendService(b.kind) && CLIENT_TLS in cloud[b]
  }

  predicate IsSecureOnly(k: Kind) {
    k.EndpointPolicy? || k.ServerTlsPolicy? || k.ClientTlsPolicy? || k.AuthzPolicy?
  }

  predicate IsIpv6(k: Kind) {
    k.ForwardingRuleIpv6? || k.TargetProxyIpv6?
  }

  predicate IsAppNetOnly(k: Kind) {
    k.HttpRoute? || k.GrpcRoute? || k.Mesh?
  }

  lemma FrontMembers(k: Kind)
    ensures k in FRONT_KINDS
            <==> k.ForwardingRule? || k.AltForwardingRule? || k.TargetHttpProxy? || k.TargetGrpcProxy?
    ensures k in IPV6_KINDS <==> IsIpv6(k)
  {
  }

  lemma BackMembers(k: Kind)
    ensures k in BACK_KINDS
            <==> k.AltTargetProxy? || k.UrlMap? || k.AltUrlMap? || IsBackendService(k) || k.HealthCheck?
  {
  }

  lemma SpecialMembers(k: Kind)
    ensures k in SECURE_KINDS <==> IsSecureOnly(k)
    ensures k in [HttpRoute, GrpcRoute, Mesh] <==> IsAppNetOnly(k)
  {
  }

  lemma BasePlanKinds(cfg: Config, k: Kind)
    requires !k.Foreign?
    ensures k in BasePlan(cfg)
            <==> SweepKind(k, cfg.dualstack) && !IsSecureOnly(k) && !IsAppNetOnly(k)
  {
    FrontMembers(k);
    BackMembers(k);
    assert k in BasePlan(cfg) <==> k in FRONT_KINDS || (cfg.dualstack && k in IPV6_KINDS) || k in BACK_KINDS;
  }

  lemma SecurePlanKinds(dualstack: bool, k: Kind)
    requires !k.Foreign?
    ensures k in Plan(SecureConfig(dualstack)) <==> SweepKind(k, dualstack) && !IsAppNetOnly(k)
  {
    BasePlanKinds(SecureConfig(dualstack), k);
    SpecialMembers(k);
    assert Plan(SecureConfig(dualstack)) == BasePlan(SecureConfig(dualstack)) + SECURE_KINDS;
  }

  lemma AppNetPlanKinds(k: Kind)
    requires !k.Foreign?
    ensures k in Plan(AppNetConfig()) <==> SweepKind(k, false) && !IsSecureOnly(k)
  {
    BasePlanKinds(AppNetConfig(), k);
    SpecialMembers(k);
    assert Plan(AppNetConfig()) == [HttpRoute, GrpcRoute, Mesh] + BasePlan(AppNetConfig());
  }

  lemma ListedIff(cfg: Config, key: Key)
    requires cfg.region.None? && cfg.manager in {Plain, AppNet, Secure}
    ensures key in KeysOf(cfg, Plan(cfg)) <==> key.kind in Plan(cfg) && key.location == Global
  {
  }

  /** A leftover does not refer to a listed kind of no higher rank. */
  lemma NoReferenceBack(cloud: Cloud, dualstack: bool, from: Key, to: Key)
    requires Leftovers(cloud, dualstack) && from in cloud && Swept(from, dualstack)
    requires Rank(to.kind) <= Rank(from.kind) && Swept(to, dualstack)
    ensures to !in cloud[from]
  {
    if to in cloud[from] { ReferencesAscend(from.kind, to.kind); }
  }

  lemma ListedIsSwept(cfg: Config, dualstack: bool, i: nat)
    requires cfg.region.None? && cfg.manager in {Plain, AppNet, Secure} && i < |Plan(cfg)|
    requires forall k :: k in Plan(cfg) ==> SweepKind(k, dualstack)
    ensures Swept(KeysOf(cfg, Plan(cfg))[i], dualstack) && KeysOf(cfg, Plan(cfg))[i].kind == Plan(cfg)[i]
  {
    assert Plan(cfg)[i] in Plan(cfg);
  }

  /** Each pass goes through the leftovers in a reverse topological order. */
  lemma PassInOrder(cfg: Config, cloud: Cloud, dualstack: bool)
    requires cfg.region.None? && cfg.manager in {Plain, AppNet, Secure}
    requires Leftovers(cloud, dualstack) && (cfg.dualstack ==> dualstack)
    requires forall k :: k in Plan(cfg) ==> SweepKind(k, dualstack)
    ensures ReverseTopological(cloud, KeysOf(cfg, Plan(cfg)))
  {
    var ks := KeysOf(cfg, Plan(cfg));
    PlanAscending(cfg);
    forall i, j | 0 <= i <= j < |ks| && ks[j] in cloud ensures ks[i] !in cloud[ks[j]] {
      ListedIsSwept(cfg, dualstack, i);
      ListedIsSwept(cfg, dualstack, j);
      NoReferenceBack(cloud, dualstack, ks[j], ks[i]);
    }
  }

  lemma LeftoversAfterDeletes(cloud: Cloud, h: Cloud, scope: bool)
    requires Leftovers(cloud, scope) && SubGraph(h, cloud)
    ensures Leftovers(h, scope)
  {
  }

  /** One pass: what is not on the list stays, the rest stays only if something that stays
      refers to it. */
  lemma PassStaysIff(cfg: Config, cloud: Cloud, scope: bool, key: Key)
    requires cfg.region.None? && cfg.manager in {Plain, AppNet, Secure}
    requires Leftovers(cloud, scope) && (cfg.dualstack ==> scope)
    requires forall k :: k in Plan(cfg) ==> SweepKind(k, scope)
    ensures var h := DeleteAll(cloud, KeysOf(cfg, Plan(cfg)));
            && (key in h <==> key in cloud && (!(key.kind in Plan(cfg) && key.location == Global) || Referred(h, key)))
            && SubGraph(h, cloud) && Leftovers(h, scope)
  {
    PassInOrder(cfg, cloud, scope);
    ListedIff(cfg, key);
    StaysIff(cloud, KeysOf(cfg, Plan(cfg)), key);
    LeftoversAfterDeletes(cloud, DeleteAll(cloud, KeysOf(cfg, Plan(cfg))), scope);
  }

  /** The managers of a sweep. */
  predicate OfSweep(cfg: Config, flag: bool) {
    cfg == SecureConfig(flag) || cfg == AppNetConfig() || cfg == PlainConfig(flag)
  }

  lemma PassKinds(cfg: Config, flag: bool, scope: bool)
    requires OfSweep(cfg, flag) && (flag ==> scope)
    ensures forall k :: k in Plan(cfg) ==> SweepKind(k, scope)
    ensures forall k :: k in Plan(cfg) && IsIpv6(k) ==> flag
  {
    PlanAscending(cfg);
    forall k | k in Plan(cfg) ensures SweepKind(k, scope) && (IsIpv6(k) ==> flag) {
      BasePlanKinds(cfg, k);
      SecurePlanKinds(flag, k);
      AppNetPlanKinds(k);
    }
  }

  lemma SecurePass(cloud: Cloud, flag: bool, scope: bool, key: Key)
    requires Leftovers(cloud, scope) && (flag ==> scope)
    ensures var h := AfterSecure(cloud, flag);
            && SubGraph(h, cloud) && Leftovers(h, scope)
            && (Swept(key, scope) ==>
                  (key in h <==> key in cloud && (IsAppNetOnly(key.kind) || (!flag && IsIpv6(key.kind)) || Referred(h, key))))
  {
    PassKinds(SecureConfig(flag), flag, scope);
    PassStaysIff(SecureConfig(flag), cloud, scope, key);
    if Swept(key, scope) { SecurePlanKinds(flag, key.kind); }
  }

  lemma AppNetPass(cloud: Cloud, scope: bool, key: Key)
    requires Leftovers(cloud, scope)
    ensures var h := DeleteAll(cloud, KeysOf(AppNetConfig(), Plan(AppNetConfig())));
            && SubGraph(h, cloud) && Leftovers(h, scope)
            && (Swept(key, scope) ==>
                  (key in h <==> key in cloud && (IsSecureOnly(key.kind) || IsIpv6(key.kind) || Referred(h, key))))
  {
    PassKinds(AppNetConfig(), false, scope);
    PassStaysIff(AppNetConfig(), cloud, scope, key);
    if Swept(key, scope) { AppNetPlanKinds(key.kind); }
  }

  lemma PlainPass(cloud: Cloud, flag: bool, scope: bool, key: Key)
    requires Leftovers(cloud, scope) && (flag ==> scope)
    ensures var h := DeleteAll(cloud, KeysOf(PlainConfig(flag), Plan(PlainConfig(flag))));
            && SubGraph(h, cloud)
            && (Swept(key, scope) && (IsSecureOnly(key.kind) || IsAppNetOnly(key.kind)) ==> (key in h <==> key in cloud))
  {
    PassKinds(PlainConfig(flag), flag, scope);
    PassStaysIff(PlainConfig(flag), cloud, scope, key);
    if Swept(key, scope) { BasePlanKinds(PlainConfig(flag), key.kind); }
  }

  // ---------- What a sweep without the dualstack flag does not touch ----------

  ghost predicate FromIpv6(cloud: Cloud, p: seq<Key>, key: Key) {
    Path(cloud, p) && IsIpv6(p[0].kind) && p[0].location == Global && p[|p| - 1] == key
  }

  /** A live IPv6 proxy or forwarding rule is or leads to the resource. */
  ghost predicate Ipv6Holds(cloud: Cloud, key: Key) {
    exists p :: FromIpv6(cloud, p, key)
  }

  /** A sweep without the flag leaves the IPv6 resources, and what they hold. */
  ghost predicate Spared(cloud: Cloud, flag: bool, key: Key) {
    !flag && Ipv6Holds(cloud, key)
  }

  lemma SparedNext(cloud: Cloud, flag: bool, r: Key, key: Key)
    requires Spared(cloud, flag, r) && r in cloud && key in cloud[r] && key in cloud
    ensures Spared(cloud, flag, key)
  {
    var p :| FromIpv6(cloud, p, r);
    assert FromIpv6(cloud, p + [key], key);
  }

  lemma SparedIpv6(cloud: Cloud, flag: bool, key: Key)
    requires !flag && key in cloud && IsIpv6(key.kind) && key.location == Global
    ensures Spared(cloud, flag, key)
  {
    assert FromIpv6(cloud, [key], key);
  }

  lemma {:induction false} PathStays(cfg: Config, cloud: Cloud, scope: bool, p: seq<Key>, key: Key, i: nat)
    requires OfSweep(cfg, false) && Leftovers(cloud, scope) && FromIpv6(cloud, p, key) && i < |p|
    ensures p[i] in DeleteAll(cloud, KeysOf(cfg, Plan(cfg)))
  {
    PassKinds(cfg, false, scope);
    PassStaysIff(cfg, cloud, scope, p[i]);
    if i > 0 {
      PathStays(cfg, cloud, scope, p, key, i - 1);
      assert p[i - 1 + 1] in cloud[p[i - 1]];
    }
  }

  lemma SparedStays(cfg: Config, cloud: Cloud, scope: bool, key: Key)
    requires OfSweep(cfg, false) && Leftovers(cloud, scope) && Spared(cloud, false, key)
    ensures var h := DeleteAll(cloud, KeysOf(cfg, Plan(cfg))); key in h && Spared(h, false, key)
  {
    var h := DeleteAll(cloud, KeysOf(cfg, Plan(cfg)));
    var p :| FromIpv6(cloud, p, key);
    PassKinds(cfg, false, scope);
    PassStaysIff(cfg, cloud, scope, key);
    forall i | 0 <= i < |p| ensures p[i] in h { PathStays(cfg, cloud, scope, p, key, i); }
    assert FromIpv6(h, p, key);
  }

  // ---------- Pass by pass ----------

  /** Kinds that no route leads to. */
  predicate OffRoute(k: Kind) {
    !IsAppNetOnly(k) && !IsBackendService(k) && !k.HealthCheck? && !k.ClientTlsPolicy?
  }

  lemma {:induction false} OffRouteGoneFirst(cloud: Cloud, flag: bool, scope: bool, key: Key)
    requires Leftovers(cloud, scope) && (flag ==> scope) && Swept(key, scope) && OffRoute(key.kind)
    requires !Spared(cloud, flag, key)
    ensures key !in AfterSecure(cloud, flag)
    decreases Rank(key.kind)
  {
    SecurePass(cloud, flag, scope, key);
    var h := AfterSecure(cloud, flag);
    if key in h {
      if !flag && IsIpv6(key.kind) { SparedIpv6(cloud, flag, key); }
      var r :| r in h && key in h[r];
      ReferencesAscend(r.kind, key.kind);
      if Spared(cloud, flag, r) { SparedNext(cloud, flag, r, key); }
      OffRouteGoneFirst(cloud, flag, scope, r);
    }
  }

  lemma RouteReferrer(cloud: Cloud, flag: bool, scope: bool, b: Key) returns (r: Key)
    requires Leftovers(cloud, scope) && (flag ==> scope) && Swept(b, scope) && IsBackendService(b.kind)
    requires b in AfterSecure(cloud, flag) && !Spared(cloud, flag, b)
    ensures b in cloud && r in cloud && IsRoute(r.kind) && b in cloud[r]
  {
    SecurePass(cloud, flag, scope, b);
    var h := AfterSecure(cloud, flag);
    r :| r in h && b in h[r];
    if Spared(cloud, flag, r) {
      SparedNext(cloud, flag, r, b);
    } else if OffRoute(r.kind) {
      OffRouteGoneFirst(cloud, flag, scope, r);
    }
  }

  lemma RouteKeeps(cloud: Cloud, flag: bool, scope: bool, r: Key, b: Key)
    requires Leftovers(cloud, scope) && (flag ==> scope) && Swept(b, scope)
    requires b in cloud && r in cloud && IsRoute(r.kind) && b in cloud[r]
    ensures b in AfterSecure(cloud, flag)
  {
    SecurePass(cloud, flag, scope, b);
    SecurePass(cloud, flag, scope, r);
    var h := AfterSecure(cloud, flag);
    assert r in h && b in h[r];
  }

  /** After the Secure pass a backend service is left exactly if a route refers to it, or it is
      spared. */
  lemma BackendServiceAfterSecure(cloud: Cloud, flag: bool, scope: bool, b: Key)
    requires Leftovers(cloud, scope) && (flag ==> scope) && Swept(b, scope) && IsBackendService(b.kind)
    ensures b in AfterSecure(cloud, flag)
            <==> b in cloud && (Spared(cloud, flag, b) || exists r :: r in cloud && IsRoute(r.kind) && b in cloud[r])
  {
    if Spared(cloud, flag, b) {
      SparedStays(SecureConfig(flag), cloud, scope, b);
      SecurePass(cloud, flag, scope, b);
    } else if b in AfterSecure(cloud, flag) {
      var r := RouteReferrer(cloud, flag, scope, b);
    } else if r :| b in cloud && r in cloud && IsRoute(r.kind) && b in cloud[r] {
      RouteKeeps(cloud, flag, scope, r, b);
    }
  }

  lemma ClientTlsAfterSecure(cloud: Cloud, flag: bool, scope: bool)
    requires Leftovers(cloud, scope) && (flag ==> scope)
    ensures CLIENT_TLS in AfterSecure(cloud, flag) <==> RouteHoldsClientTls(cloud) || Spared(cloud, flag, CLIENT_TLS)
  {
    SecurePass(cloud, flag, scope, CLIENT_TLS);
    var h := AfterSecure(cloud, flag);
    if b :| b in h && CLIENT_TLS in h[b] {
      assert IsBackendService(b.kind);
      BackendServiceAfterSecure(cloud, flag, scope, b);
      if CLIENT_TLS in cloud && Spared(cloud, flag, b) { SparedNext(cloud, flag, b, CLIENT_TLS); }
    }
    if RouteHoldsClientTls(cloud) {
      var r, b :| r in cloud && IsRoute(r.kind) && r.location == Global && b in cloud && b in cloud[r]
                  && IsBackendService(b.kind) && CLIENT_TLS in cloud[b];
      BackendServiceAfterSecure(cloud, flag, scope, b);
      assert b in h && CLIENT_TLS in h[b];
    }
    if Spared(cloud, flag, CLIENT_TLS) { SparedStays(SecureConfig(flag), cloud, scope, CLIENT_TLS); }
  }

  /** What the first two passes leave on a route is referred to by something they leave. */
  lemma ReferrerAfterSecond(cloud: Cloud, flag: bool, scope: bool, key: Key) returns (r: Key)
    requires Leftovers(cloud, scope) && (flag ==> scope) && Swept(key, scope)
    requires key != CLIENT_TLS && !OffRoute(key.kind) && key in AfterAppNet(cloud, flag)
    ensures r in AfterAppNet(cloud, flag) && r in cloud && key in cloud && key in cloud[r]
  {
    var h1, h2 := AfterSecure(cloud, flag), AfterAppNet(cloud, flag);
    SecurePass(cloud, flag, scope, key);
    AppNetPass(h1, scope, key);
    r :| r in h2 && key in h2[r];
  }

  lemma ReferrerOf(cloud: Cloud, scope: bool, r: Key, key: Key)
    requires Leftovers(cloud, scope) && Swept(key, scope) && r in cloud && key in cloud[r]
    ensures Swept(r, scope) && r != CLIENT_TLS && Rank(r.kind) < Rank(key.kind)
  {
    ReferencesAscend(r.kind, key.kind);
  }

  lemma OffRouteGoneSecond(cloud: Cloud, flag: bool, scope: bool, key: Key)
    requires Leftovers(cloud, scope) && (flag ==> scope) && Swept(key, scope) && OffRoute(key.kind)
    requires !Spared(cloud, flag, key)
    ensures key !in AfterAppNet(cloud, flag)
  {
    OffRouteGoneFirst(cloud, flag, scope, key);
    SecurePass(cloud, flag, scope, key);
    AppNetPass(AfterSecure(cloud, flag), scope, key);
  }

  /** After two passes only the client TLS policy can be left, of what is not spared. */
  lemma {:induction false} RestGoneSecond(cloud: Cloud, flag: bool, scope: bool, key: Key)
    requires Leftovers(cloud, scope) && (flag ==> scope) && Swept(key, scope) && key != CLIENT_TLS
    requires !Spared(cloud, flag, key)
    ensures key !in AfterAppNet(cloud, flag)
    decreases Rank(key.kind)
  {
    if OffRoute(key.kind) {
      OffRouteGoneSecond(cloud, flag, scope, key);
    } else if key in AfterAppNet(cloud, flag) {
      var r := ReferrerAfterSecond(cloud, flag, scope, key);
      ReferrerOf(cloud, scope, r, key);
      if Spared(cloud, flag, r) { SparedNext(cloud, flag, r, key); }
      RestGoneSecond(cloud, flag, scope, r);
    }
  }

  lemma SparedStaysThroughout(cloud: Cloud, scope: bool, key: Key)
    requires Leftovers(cloud, scope) && Spared(cloud, false, key)
    ensures key in Sweep(cloud, false)
  {
    var h1, h2 := AfterSecure(cloud, false), AfterAppNet(cloud, false);
    SecurePass(cloud, false, scope, key);
    AppNetPass(h1, scope, key);
    SparedStays(SecureConfig(false), cloud, scope, key);
    SparedStays(AppNetConfig(), h1, scope, key);
    SparedStays(PlainConfig(false), h2, scope, key);
  }

  /** The sweep, exactly: whatever mix of global-scope leftovers it starts from, with or without
      IPv6 ones (`scope`), of their names it leaves the client TLS policy if a live route leads
      to it over a live backend service; if its dualstack flag is off, also the IPv6 resources
      and what they lead to; and nothing else. */
  lemma SweepExact(cloud: Cloud, flag: bool, scope: bool, key: Key)
    requires Leftovers(cloud, scope) && (flag ==> scope) && Swept(key, scope)
    ensures key in Sweep(cloud, flag)
            <==> (key == CLIENT_TLS && RouteHoldsClientTls(cloud)) || Spared(cloud, flag, key)
  {
    var h1, h2 := AfterSecure(cloud, flag), AfterAppNet(cloud, flag);
    SecurePass(cloud, flag, scope, key);
    AppNetPass(h1, scope, key);
    PlainPass(h2, flag, scope, key);
    if Spared(cloud, flag, key) {
      SparedStaysThroughout(cloud, scope, key);
    } else if key == CLIENT_TLS {
      ClientTlsAfterSecure(cloud, flag, scope);
    } else {
      RestGoneSecond(cloud, flag, scope, key);
    }
  }

  /** The sweep leaves everyone else's resources as they were. */
  lemma SweepLeavesOthers(cloud: Cloud, flag: bool, scope: bool, key: Key)
    requires Leftovers(cloud, scope) && (flag ==> scope) && key in cloud && !Swept(key, scope)
    ensures key in Sweep(cloud, flag) && Sweep(cloud, flag)[key] == cloud[key]
  {
    OtherStaysInPass(SecureConfig(flag), cloud, flag, scope, key);
    var h1, h2 := AfterSecure(cloud, flag), AfterAppNet(cloud, flag);
    SecurePass(cloud, flag, scope, key);
    OtherStaysInPass(AppNetConfig(), h1, flag, scope, key);
    AppNetPass(h1, scope, key);
    OtherStaysInPass(PlainConfig(flag), h2, flag, scope, key);
  }

  lemma OtherStaysInPass(cfg: Config, cloud: Cloud, flag: bool, scope: bool, key: Key)
    requires OfSweep(cfg, flag) && (flag ==> scope)
    requires Leftovers(cloud, scope) && key in cloud && !Swept(key, scope)
    ensures var h := DeleteAll(cloud, KeysOf(cfg, Plan(cfg))); key in h && h[key] == cloud[key]
  {
    PassKinds(cfg, flag, scope);
    PassStaysIff(cfg, cloud, scope, key);
  }

  // ---------- Leftovers of one manager ----------

  /** The resources alive are those of one manager, and foreign ones. */
  ghost predicate LeftBy(cfg: Config, cloud: Cloud) {
    exists st :: Reachable(cfg, st) && st.cloud == cloud
                 && forall k :: k in cloud && !k.kind.Foreign? ==> Owned(cfg, k)
  }

  lemma SweptIffOwned(cfg: Config, dualstack: bool, key: Key)
    requires cfg.region.None? && cfg.manager in {Plain, AppNet, Secure, Spiffe} && (cfg.dualstack ==> dualstack)
    requires !key.kind.Foreign?
    ensures Owned(cfg, key) ==> Swept(key, dualstack)
    ensures Owned(cfg, key) && cfg.manager.AppNet? ==> key != CLIENT_TLS
    ensures Owned(cfg, key) && (cfg.manager.Plain? || cfg.manager.Secure?) ==> !IsRoute(key.kind)
  {
    BasePlanKinds(cfg, key.kind);
    SpecialMembers(key.kind);
    assert key.kind in [GrpcRoute, Mesh] ==> IsAppNetOnly(key.kind);
  }

  lemma LeftByIsLeftovers(cfg: Config, cloud: Cloud, dualstack: bool)
    requires cfg.region.None? && cfg.manager in {Plain, AppNet, Secure, Spiffe} && (cfg.dualstack ==> dualstack)
    requires LeftBy(cfg, cloud)
    requires forall r, t :: r in cloud && r.kind.Foreign? && t in cloud[r] ==> !Swept(t, dualstack)
    ensures Leftovers(cloud, dualstack)
  {
    var st :| Reachable(cfg, st) && st.cloud == cloud
              && forall k :: k in cloud && !k.kind.Foreign? ==> Owned(cfg, k);
    ReachableIsSound(cfg, st);
    forall r, t | r in cloud && t in cloud[r] && (Swept(r, dualstack) || Swept(t, dualstack))
      ensures Swept(r, dualstack) && MayRefer(r.kind, t.kind) && (Swept(t, dualstack) || t.kind.Foreign?)
    {
      if !r.kind.Foreign? { SweptIffOwned(cfg, dualstack, r); }
      if !t.kind.Foreign? { SweptIffOwned(cfg, dualstack, t); }
    }
  }

  /** The leftovers of a dualstack manager, or a sweep with the flag, bring IPv6 names in. */
  function ScopeOf(cfg: Config, flag: bool): bool {
    flag || cfg.dualstack
  }

  ghost predicate Ipv6Alive(cloud: Cloud) {
    exists k :: k in cloud && IsIpv6(k.kind) && k.location == Global
  }

  lemma PathBegins(cloud: Cloud, p: seq<Key>, key: Key)
    requires FromIpv6(cloud, p, key)
    ensures Ipv6Alive(cloud)
  {
    assert p[0] in cloud;
  }

  lemma SparedOnlyIf(cloud: Cloud, flag: bool, key: Key)
    requires Spared(cloud, flag, key)
    ensures !flag && Ipv6Alive(cloud)
  {
    var p :| FromIpv6(cloud, p, key);
    PathBegins(cloud, p, key);
  }

  lemma Ipv6IsSwept(cfg: Config, cloud: Cloud, flag: bool, k: Key)
    requires cfg.region.None? && cfg.manager in {Plain, AppNet, Secure, Spiffe} && LeftBy(cfg, cloud)
    requires k in cloud && IsIpv6(k.kind)
    ensures Swept(k, ScopeOf(cfg, flag))
  {
    SweptIffOwned(cfg, ScopeOf(cfg, flag), k);
  }

  /** Whatever one global-scope manager left behind, midway or after failures, the sweep
      removes, except for the client TLS policy that a Spiffe manager's route leads to, and
      unless IPv6 resources are alive and the sweep's flag is off.  The first pass is refused
      the AppNet manager's backend services; the second gets them. */
  lemma SweepEmptiesIff(cfg: Config, cloud: Cloud, flag: bool)
    requires cfg.region.None? && cfg.manager in {Plain, AppNet, Secure, Spiffe}
    requires LeftBy(cfg, cloud)
    requires forall r, t :: r in cloud && r.kind.Foreign? && t in cloud[r] ==> !Swept(t, ScopeOf(cfg, flag))
    ensures (forall k :: k in Sweep(cloud, flag) ==> !Swept(k, ScopeOf(cfg, flag)))
            <==> !(cfg.manager.Spiffe? && RouteHoldsClientTls(cloud)) && !(!flag && Ipv6Alive(cloud))
  {
    var scope := ScopeOf(cfg, flag);
    LeftByIsLeftovers(cfg, cloud, scope);
    forall k | k in Sweep(cloud, flag) && Swept(k, scope)
      ensures RouteHoldsClientTls(cloud) || (!flag && Ipv6Alive(cloud))
    {
      SweepExact(cloud, flag, scope, k);
      if Spared(cloud, flag, k) { SparedOnlyIf(cloud, flag, k); }
    }
    SweepExact(cloud, flag, scope, CLIENT_TLS);
    if k :| !flag && k in cloud && IsIpv6(k.kind) && k.location == Global {
      SparedIpv6(cloud, flag, k);
      Ipv6IsSwept(cfg, cloud, flag, k);
      SweepExact(cloud, flag, scope, k);
    }
    if RouteHoldsClientTls(cloud) { OnlySpiffeHolds(cfg, cloud, scope); }
  }

  lemma OnlySpiffeHolds(cfg: Config, cloud: Cloud, scope: bool)
    requires cfg.region.None? && cfg.manager in {Plain, AppNet, Secure, Spiffe} && (cfg.dualstack ==> scope)
    requires LeftBy(cfg, cloud) && RouteHoldsClientTls(cloud)
    ensures cfg.manager.Spiffe?
  {
    var r :| r in cloud && IsRoute(r.kind);
    SweptIffOwned(cfg, scope, r);
    SweptIffOwned(cfg, scope, CLIENT_TLS);
  }
}
