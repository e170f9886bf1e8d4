/** What the manager classes offer to create, with which references and in which places; and
    that their cleanups go after all of it. */
module TdOffers {
  import opened Wrappers
  import opened CloudGraph
  import opened TdResources
  import opened TdState
  import opened TdCleanup
  import opened TdTheorems

  // ---------- Classes, kinds and places ----------

  /** The class has a create method for the kind; those for IPv6 are for dualstack managers. */
  predicate Offers(cfg: Config, k: Kind) {
    match k
    case Foreign(_) => false
    case HttpRoute => cfg.manager.AppNet? || cfg.manager.CloudRun?
    case GrpcRoute => cfg.manager.AppNet? || cfg.manager.Spiffe? || cfg.manager.CloudRun?
    case Mesh => cfg.manager.AppNet? || cfg.manager.Spiffe?
    case CloudRunMesh => cfg.manager.CloudRun?
    case Neg => cfg.manager.CloudRun?
    case EndpointPolicy => cfg.manager.Secure? || cfg.manager.Spiffe?
    case ServerTlsPolicy => cfg.manager.Secure? || cfg.manager.Spiffe?
    case ClientTlsPolicy => cfg.manager.Secure? || cfg.manager.Spiffe?
    case AuthzPolicy => cfg.manager.Secure? || cfg.manager.Spiffe?
    case ForwardingRuleIpv6 => cfg.dualstack
    case TargetProxyIpv6 => cfg.dualstack
    case _ => true
  }

  /** The kinds that are created in the region of the manager, if it has one. */
  predicate Regional(k: Kind) {
    k in {HttpRoute, GrpcRoute, Mesh, CloudRunMesh, ForwardingRule, ForwardingRuleIpv6, TargetHttpProxy,
          UrlMap, AltUrlMap, BackendService}
  }

  function Place(cfg: Config, k: Kind): Key {
    Key(k, if k == Neg then Region(cfg.serverlessRegion)
           else if cfg.region.Some? && Regional(k) then Region(cfg.region.value)
           else Global)
  }

  lemma Planned(cfg: Config, k: Kind)
    ensures k in Plan(cfg) <==> Offers(cfg, k)
    ensures Created(cfg, k) == Place(cfg, k)
    ensures Offers(cfg, k) && k != ForwardingRuleIpv6 ==> Deleted(cfg, k) == Place(cfg, k)
  {
    InParts(cfg, k);
  }

  lemma InParts(cfg: Config, k: Kind)
    ensures k in BasePlan(cfg)
            <==> (k in {ForwardingRule, AltForwardingRule, TargetHttpProxy, TargetGrpcProxy, AltTargetProxy, UrlMap,
                        AltUrlMap, BackendService, AltBackendService, AffinityBackendService, HealthCheck})
                 || (cfg.dualstack && k in {ForwardingRuleIpv6, TargetProxyIpv6})
    ensures k in SecurePlan(cfg)
            <==> k in BasePlan(cfg) || k in {EndpointPolicy, ServerTlsPolicy, ClientTlsPolicy, AuthzPolicy}
  {
  }

  // ---------- What a create makes ----------

  function TrackedAs(st: State, a: Kind): set<Key> {
    if a in st.tracked then {st.tracked[a]} else {}
  }

  /** The request makes a resource of kind k that refers to `refs`: to what it needs, which must
      be tracked, and to what it takes along if it is tracked. */
  predicate Makes(cfg: Config, st: State, req: Request, k: Kind, refs: set<Key>) {
    match req
    case NewHealthCheck => k == HealthCheck && refs == {} && HealthCheck !in st.tracked
    case NewBackendService(_, tls) =>
      k == BackendService && refs == TrackedAs(st, HealthCheck) + if tls then TrackedAs(st, ClientTlsPolicy) else {}
    case NewAltBackendService => k == AltBackendService && refs == TrackedAs(st, HealthCheck)
    case NewAffinityBackendService => k == AffinityBackendService && refs == TrackedAs(st, HealthCheck)
    case NewUrlMap => k == UrlMap && BackendService in st.tracked && refs == {st.tracked[BackendService]}
    case NewUrlMapWithContent(content) => k == UrlMap && refs == content
    case NewAltUrlMap(Some(service)) => k == AltUrlMap && refs == {service}
    case NewAltUrlMap(None) => k == AltUrlMap && AltBackendService in st.tracked && refs == {st.tracked[AltBackendService]}
    case NewTargetProxy =>
      && (st.protocol == Http2 ==> k == TargetHttpProxy) && (st.protocol == Grpc ==> k == TargetGrpcProxy)
      && st.protocol != Unset && UrlMap in st.tracked && refs == {st.tracked[UrlMap]}
    case NewTargetProxyIpv6 => k == TargetProxyIpv6 && UrlMap in st.tracked && refs == {st.tracked[UrlMap]}
    case NewAltTargetProxy =>
      k == AltTargetProxy && st.protocol == Grpc && AltUrlMap in st.tracked && refs == {st.tracked[AltUrlMap]}
    case NewForwardingRule =>
      k == ForwardingRule && TargetGrpcProxy in st.tracked && refs == {st.tracked[TargetGrpcProxy]}
    case NewForwardingRuleIpv6 =>
      k == ForwardingRuleIpv6 && TargetProxyIpv6 in st.tracked && refs == {st.tracked[TargetProxyIpv6]}
    case NewAltForwardingRule =>
      k == AltForwardingRule && AltTargetProxy in st.tracked && refs == {st.tracked[AltTargetProxy]}
    case NewMesh => k == (if cfg.manager.CloudRun? then CloudRunMesh else Mesh) && refs == {}
    case NewGrpcRoute =>
      var mesh := if cfg.manager.CloudRun? then CloudRunMesh else Mesh;
      k == GrpcRoute && BackendService in st.tracked && mesh in st.tracked
      && refs == {st.tracked[BackendService], st.tracked[mesh]}
    case NewGrpcRouteWithContent(content) => k == GrpcRoute && refs == content
    case NewHttpRouteWithContent(content) => k == HttpRoute && refs == content
    case NewServerTlsPolicy => k == ServerTlsPolicy && refs == {}
    case NewClientTlsPolicy => k == ClientTlsPolicy && refs == {}
    case NewAuthzPolicy => k == AuthzPolicy && refs == {}
    case NewEndpointPolicy => k == EndpointPolicy && refs == TrackedAs(st, ServerTlsPolicy) + TrackedAs(st, AuthzPolicy)
    case NewNeg => k == Neg && refs == {}
    case _ => false
  }

  predicate IsPatch(req: Request) {
    req.PatchUrlMap? || req.PatchBackends? || req.ApplyClientTls?
  }

  lemma RefsAre(st: State, a: Kind, b: Kind)
    ensures Refs(st, {a}) == TrackedAs(st, a)
    ensures Refs(st, {a, b}) == TrackedAs(st, a) + TrackedAs(st, b)
  {
  }

  lemma InsertsIff(st: State, k: Kind, a: Kind, l: Kind, refs: set<Key>)
    ensures InsertIf(st, k, {a}) == Some(Insert(l, refs)) <==> l == k && a in st.tracked && refs == {st.tracked[a]}
  {
    RefsAre(st, a, a);
    assert {a} <= st.tracked.Keys <==> a in st.tracked;
  }

  lemma InsertsTwoIff(st: State, k: Kind, a: Kind, b: Kind, l: Kind, refs: set<Key>)
    ensures InsertIf(st, k, {a, b}) == Some(Insert(l, refs))
            <==> l == k && a in st.tracked && b in st.tracked && refs == {st.tracked[a], st.tracked[b]}
  {
    RefsAre(st, a, b);
    assert {a, b} <= st.tracked.Keys <==> a in st.tracked && b in st.tracked;
    if a in st.tracked && b in st.tracked {
      assert TrackedAs(st, a) + TrackedAs(st, b) == {st.tracked[a], st.tracked[b]};
    }
  }

  lemma BackendsPreparedIff(cfg: Config, st: State, req: Request, k: Kind, refs: set<Key>)
    requires req.NewBackendService? || req.NewAltBackendService? || req.NewAffinityBackendService?
    ensures Prepare(cfg, st, req) == Some(Insert(k, refs)) <==> Makes(cfg, st, req, k, refs)
  {
    RefsAre(st, HealthCheck, ClientTlsPolicy);
    assert TrackedAs(st, HealthCheck) + {} == TrackedAs(st, HealthCheck);
  }

  lemma RoutingPreparedIff(cfg: Config, st: State, req: Request, k: Kind, refs: set<Key>)
    requires req.NewUrlMap? || req.NewAltUrlMap? || req.NewTargetProxy? || req.NewTargetProxyIpv6? || req.NewAltTargetProxy?
             || req.NewForwardingRule? || req.NewForwardingRuleIpv6? || req.NewAltForwardingRule?
    ensures Prepare(cfg, st, req) == Some(Insert(k, refs)) <==> Makes(cfg, st, req, k, refs)
  {
    match req {
      case NewUrlMap => InsertsIff(st, UrlMap, BackendService, k, refs);
      case NewAltUrlMap(_) => InsertsIff(st, AltUrlMap, AltBackendService, k, refs);
      case NewTargetProxy => InsertsIff(st, if st.protocol.Http2? then TargetHttpProxy else TargetGrpcProxy, UrlMap, k, refs);
      case NewTargetProxyIpv6 => InsertsIff(st, TargetProxyIpv6, UrlMap, k, refs);
      case NewAltTargetProxy => InsertsIff(st, AltTargetProxy, AltUrlMap, k, refs);
      case NewForwardingRule => InsertsIff(st, ForwardingRule, TargetGrpcProxy, k, refs);
      case NewForwardingRuleIpv6 => InsertsIff(st, ForwardingRuleIpv6, TargetProxyIpv6, k, refs);
      case NewAltForwardingRule => InsertsIff(st, AltForwardingRule, AltTargetProxy, k, refs);
    }
  }

  lemma PreparedIff(cfg: Config, st: State, req: Request, k: Kind, refs: set<Key>)
    requires !IsPatch(req)
    ensures Prepare(cfg, st, req) == Some(Insert(k, refs)) <==> Makes(cfg, st, req, k, refs)
  {
    match req {
      case NewBackendService(_, _) => BackendsPreparedIff(cfg, st, req, k, refs);
      case NewAltBackendService => BackendsPreparedIff(cfg, st, req, k, refs);
      case NewAffinityBackendService => BackendsPreparedIff(cfg, st, req, k, refs);
      case NewGrpcRoute =>
        InsertsTwoIff(st, GrpcRoute, BackendService, if cfg.manager.CloudRun? then CloudRunMesh else Mesh, k, refs);
      case NewEndpointPolicy => RefsAre(st, ServerTlsPolicy, AuthzPolicy);
      case NewHealthCheck | NewMesh | NewNeg | NewServerTlsPolicy | NewClientTlsPolicy | NewAuthzPolicy =>
      case NewUrlMapWithContent(_) | NewGrpcRouteWithContent(_) | NewHttpRouteWithContent(_) =>
      case _ => RoutingPreparedIff(cfg, st, req, k, refs);
    }
  }

  /** The attribute that holds it: both proxies share one. */
  function Attribute(k: Kind): Kind {
    if k.TargetHttpProxy? then TargetGrpcProxy else k
  }

  /** The state after a create was answered: the resource is in its place with its references,
      and in its attribute, unless the reply was lost. */
  ghost predicate Added(cfg: Config, st: State, st': State, req: Request, k: Kind, refs: set<Key>, lost: bool) {
    && st'.cloud == st.cloud[Place(cfg, k) := refs]
    && st'.tracked == (if lost then st.tracked else st.tracked[Attribute(k) := Place(cfg, k)])
    && st'.protocol == (if req.NewBackendService? && !lost then req.protocol else st.protocol)
    && st'.proxyIsHttp == if req.NewTargetProxy? then k.TargetHttpProxy? else st.proxyIsHttp
  }

  /** A create that the class offers, for a name that is free, with what it needs tracked. */
  lemma CreatePutsItsResource(cfg: Config, st: State, req: Request, k: Kind, refs: set<Key>)
    requires Offers(cfg, k) && Makes(cfg, st, req, k, refs) && Place(cfg, k) !in st.cloud
    ensures Added(cfg, st, DoRequest(cfg, st, req, Replied), req, k, refs, false)
    ensures Added(cfg, st, DoRequest(cfg, st, req, LostReply), req, k, refs, true)
    ensures var st' := DoRequest(cfg, st, req, Rejected); st'.cloud == st.cloud && st'.tracked == st.tracked
  {
    Planned(cfg, k);
    PreparedIff(cfg, st, req, k, refs);
  }

  /** Any other create changes nothing but, on the way, the flag of the target proxy. */
  lemma OtherCreatesChangeNothing(cfg: Config, st: State, req: Request, reply: Reply)
    requires !IsPatch(req)
    requires forall k, refs :: Makes(cfg, st, req, k, refs) && Offers(cfg, k) ==> Place(cfg, k) in st.cloud
    ensures var st' := DoRequest(cfg, st, req, reply);
            && st' == st.(proxyIsHttp := st'.proxyIsHttp)
            && st'.proxyIsHttp == if req.NewTargetProxy? && st.protocol != Unset then st.protocol == Http2 else st.proxyIsHttp
  {
    var call := Prepare(cfg, st, req);
    if call.Some? {
      PreparedIff(cfg, st, req, call.value.kind, call.value.refs);
      Planned(cfg, call.value.kind);
    }
  }

  // ---------- What a patch changes ----------

  predicate CanBeBackend(key: Key) {
    key.kind == Neg || key.kind.Foreign?
  }

  /** A patch replaces the references of one resource that is tracked and alive: those of the
      URL map by the new service, the backends of a backend service by the new ones, and the
      client TLS policy is added to those of the main backend service. */
  predicate Patches(cfg: Config, st: State, req: Request, k: Kind, refs: set<Key>) {
    && Place(cfg, k) in st.cloud && k in st.tracked
    && match req
       case PatchUrlMap(service) => k == UrlMap && refs == {service}
       case PatchBackends(bs, backends) =>
         && k == bs && (bs == BackendService || bs == AltBackendService || bs == AffinityBackendService)
         && refs == (set t | t in st.cloud[Place(cfg, k)] && !CanBeBackend(t)) + backends
       case ApplyClientTls =>
         && k == BackendService && ClientTlsPolicy in st.tracked
         && refs == st.cloud[Place(cfg, k)] + {st.tracked[ClientTlsPolicy]}
       case _ => false
  }

  lemma PatchReplacesReferences(cfg: Config, st: State, req: Request, reply: Reply, k: Kind, refs: set<Key>)
    requires Patches(cfg, st, req, k, refs)
    ensures DoRequest(cfg, st, req, reply)
            == if reply.Rejected? then st else st.(cloud := st.cloud[Place(cfg, k) := refs])
  {
    Planned(cfg, k);
    PatchPrepared(cfg, st, req, k, refs);
  }

  lemma PatchPrepared(cfg: Config, st: State, req: Request, k: Kind, refs: set<Key>)
    requires Patches(cfg, st, req, k, refs)
    ensures Prepare(cfg, st, req) == Some(Update(k, refs))
  {
    Planned(cfg, k);
    if req.PatchBackends? {
      assert forall t: Key :: CanBeBackend(t) <==> IsBackend(t);
      assert refs == (set t | t in st.cloud[Created(cfg, k)] && !IsBackend(t)) + req.refs;
    }
  }

  lemma OtherPatchesChangeNothing(cfg: Config, st: State, req: Request, reply: Reply)
    requires IsPatch(req) && forall k, refs :: !Patches(cfg, st, req, k, refs)
    ensures DoRequest(cfg, st, req, reply) == st
  {
    match req {
      case PatchUrlMap(service) =>
        Planned(cfg, UrlMap);
        assert !Patches(cfg, st, req, UrlMap, {service});
      case PatchBackends(bs, backends) => BackendsNotPatched(cfg, st, bs, backends, reply);
      case ApplyClientTls =>
        Planned(cfg, BackendService);
        if Place(cfg, BackendService) in st.cloud && ClientTlsPolicy in st.tracked {
          assert !Patches(cfg, st, req, BackendService, st.cloud[Place(cfg, BackendService)] + {st.tracked[ClientTlsPolicy]});
        }
    }
  }

  lemma BackendsNotPatched(cfg: Config, st: State, bs: Kind, backends: set<Key>, reply: Reply)
    requires forall k, refs :: !Patches(cfg, st, PatchBackends(bs, backends), k, refs)
    ensures DoRequest(cfg, st, PatchBackends(bs, backends), reply) == st
  {
    Planned(cfg, bs);
    if Place(cfg, bs) in st.cloud {
      assert !Patches(cfg, st, PatchBackends(bs, backends), bs,
                      (set t | t in st.cloud[Place(cfg, bs)] && !CanBeBackend(t)) + backends);
    }
  }

  // ---------- What a delete removes ----------

  /** Where the delete looks: in the place of the create, but globally for the IPv6 rule. */
  function LooksAt(cfg: Config, k: Kind): Key {
    if k == ForwardingRuleIpv6 then Key(k, Global) else Place(cfg, k)
  }

  predicate IsProxy(k: Kind) {
    k == TargetHttpProxy || k == TargetGrpcProxy
  }

  /** A delete is sent if forced, or else for what is tracked, an HTTP proxy by its flag; it
      removes what nobody refers to, and its attribute is cleared (that of the main URL map by
      the delete of the alternative one). */
  lemma DeleteRemovesItsResource(cfg: Config, st: State, k: Kind, force: bool)
    ensures var sent := force || (Attribute(k) in st.tracked && (k == TargetHttpProxy ==> st.proxyIsHttp));
            var key, st' := LooksAt(cfg, k), DoDelete(cfg, st, k, force);
            && (!sent ==> st' == st)
            && (sent ==>
                  && (if forall r :: r in st.cloud ==> key !in st.cloud[r] then st'.cloud == st.cloud - {key} else st'.cloud == st.cloud)
                  && st'.tracked == st.tracked - {if k == AltUrlMap then UrlMap else Attribute(k)}
                  && st'.protocol == st.protocol
                  && st'.proxyIsHttp == (st.proxyIsHttp && !IsProxy(k)))
  {
    Planned(cfg, k);
  }

  // ---------- Cleanup goes after everything on offer ----------

  /** None of what the class offers is in its place. */
  ghost predicate OffersGone(cfg: Config, cloud: Cloud) {
    forall k :: Offers(cfg, k) ==> Place(cfg, k) !in cloud
  }

  predicate RuleElsewhere(cfg: Config, cloud: Cloud) {
    cfg.dualstack && cfg.region.Some? && Key(ForwardingRuleIpv6, Region(cfg.region.value)) in cloud
  }

  lemma GoneIff(cfg: Config, cloud: Cloud)
    ensures OffersGone(cfg, cloud) <==> NothingLeft(cfg, cloud)
    ensures RuleElsewhere(cfg, cloud) <==> MisplacedRule(cfg, cloud)
  {
    if OffersGone(cfg, cloud) {
      forall key | key in cloud ensures !Owned(cfg, key) { Planned(cfg, key.kind); }
    }
    if NothingLeft(cfg, cloud) {
      forall k | Offers(cfg, k) ensures Place(cfg, k) !in cloud {
        Planned(cfg, k);
        assert Owned(cfg, Place(cfg, k));
      }
    }
  }

  /** From every state that any calls can reach, forced cleanup leaves none of the resources the
      class offers where it creates them, the endpoint group in its serverless region included,
      unless the IPv6 rule is alive in the manager's region. */
  lemma ForcedCleanupLeavesNoOffer(cfg: Config, st: State)
    requires Reachable(cfg, st)
    ensures OffersGone(cfg, Cleanup(cfg, st, true).cloud) <==> !RuleElsewhere(cfg, st.cloud)
  {
    ForcedCleanupEmptiesIff(cfg, st);
    GoneIff(cfg, st.cloud);
    GoneIff(cfg, Cleanup(cfg, st, true).cloud);
  }

  /** So it leaves none for the Secure, Spiffe and Cloud Run managers, which have no region. */
  lemma GlobalClassesLeaveNoOffer(cfg: Config, st: State)
    requires cfg.manager in {Secure, Spiffe, CloudRun} && Reachable(cfg, st)
    ensures OffersGone(cfg, Cleanup(cfg, st, true).cloud)
  {
    assert cfg.region.None?;
    ForcedCleanupLeavesNoOffer(cfg, st);
  }

  /** Nor does an ordinary cleanup after creates that told the truth. */
  lemma CleanupAfterCreatesLeavesNoOffer(cfg: Config, cloud0: Cloud, ops: seq<Op>)
    requires Untouched(cfg, cloud0) && forall op :: op in ops ==> Good(cfg, op) && Truthful(op)
    ensures var st := Execute(cfg, NewManager(cloud0), ops);
            OffersGone(cfg, Cleanup(cfg, st, false).cloud) <==> !RuleElsewhere(cfg, st.cloud)
  {
    var st := Execute(cfg, NewManager(cloud0), ops);
    CleanupAfterCreatesEmptiesIff(cfg, cloud0, ops);
    GoneIff(cfg, st.cloud);
    GoneIff(cfg, Cleanup(cfg, st, false).cloud);
  }

  // ---------- Everything on offer can come alive ----------

  lemma Creating(cfg: Config, st: State, req: Request, k: Kind, refs: set<Key>) returns (st': State)
    requires Reachable(cfg, st) && Good(cfg, Ask(req, Replied))
    requires Offers(cfg, k) && Makes(cfg, st, req, k, refs) && Place(cfg, k) !in st.cloud
    ensures Reachable(cfg, st') && Added(cfg, st, st', req, k, refs, false)
  {
    CreatePutsItsResource(cfg, st, req, k, refs);
    ReachableStep(cfg, st, Ask(req, Replied));
    st' := DoRequest(cfg, st, req, Replied);
  }

  function Stranger(): Key { Key(Foreign(0), Global) }

  /** A create that needs nothing else, for each kind that has one. */
  function Alone(k: Kind): Option<Request> {
    match k
    case HealthCheck => Some(NewHealthCheck)
    case BackendService => Some(NewBackendService(Grpc, false))
    case AltBackendService => Some(NewAltBackendService)
    case AffinityBackendService => Some(NewAffinityBackendService)
    case UrlMap => Some(NewUrlMapWithContent({Stranger()}))
    case AltUrlMap => Some(NewAltUrlMap(Some(Stranger())))
    case Mesh => Some(NewMesh) case CloudRunMesh => Some(NewMesh)
    case GrpcRoute => Some(NewGrpcRouteWithContent({Stranger()}))
    case HttpRoute => Some(NewHttpRouteWithContent({Stranger()}))
    case ServerTlsPolicy => Some(NewServerTlsPolicy) case ClientTlsPolicy => Some(NewClientTlsPolicy)
    case AuthzPolicy => Some(NewAuthzPolicy) case EndpointPolicy => Some(NewEndpointPolicy)
    case Neg => Some(NewNeg)
    case _ => None
  }

  lemma AloneMakes(cfg: Config, st: State, k: Kind) returns (refs: set<Key>)
    requires Offers(cfg, k) && Alone(k).Some?
    requires st.tracked.Keys !! {HealthCheck, ServerTlsPolicy, ClientTlsPolicy, AuthzPolicy}
    ensures Makes(cfg, st, Alone(k).value, k, refs) && Good(cfg, Ask(Alone(k).value, Replied))
  {
    refs := if k in {UrlMap, AltUrlMap, GrpcRoute, HttpRoute} then {Stranger()} else {};
  }

  lemma ComesAliveAlone(cfg: Config, k: Kind) returns (st: State)
    requires Offers(cfg, k) && Alone(k).Some?
    ensures Reachable(cfg, st) && Place(cfg, k) in st.cloud
  {
    var st0 := FreshIsReachable(cfg, map[]);
    var refs := AloneMakes(cfg, st0, k);
    st := Creating(cfg, st0, Alone(k).value, k, refs);
  }

  /** A state with the URL map (or the alternative one) and nothing else but a backend service
      of the protocol. */
  lemma Groundwork(cfg: Config, protocol: Protocol, map_: Kind) returns (st: State)
    requires map_ == UrlMap || map_ == AltUrlMap
    ensures Reachable(cfg, st) && st.protocol == protocol
    ensures st.tracked == map[BackendService := Place(cfg, BackendService), map_ := Place(cfg, map_)]
    ensures st.cloud.Keys == {Place(cfg, BackendService), Place(cfg, map_)}
  {
    var st0 := FreshIsReachable(cfg, map[]);
    assert TrackedAs(st0, HealthCheck) + {} == {};
    var st1 := Creating(cfg, st0, NewBackendService(protocol, false), BackendService, {});
    var refs := AloneMakes(cfg, st1, map_);
    st := Creating(cfg, st1, Alone(map_).value, map_, refs);
    assert st.cloud.Keys == {Place(cfg, BackendService), Place(cfg, map_)};
  }

  /** A proxy on top of that, and its forwarding rule, which refers to it. */
  datatype Front = HttpFront | GrpcFront | Ipv6Front | AltFront

  function ProxyOf(f: Front): Kind {
    match f case HttpFront => TargetHttpProxy case GrpcFront => TargetGrpcProxy case Ipv6Front => TargetProxyIpv6 case AltFront => AltTargetProxy
  }

  function RuleOf(f: Front): Kind {
    match f case Ipv6Front => ForwardingRuleIpv6 case AltFront => AltForwardingRule case _ => ForwardingRule
  }

  lemma ProxyComesAlive(cfg: Config, f: Front) returns (st: State)
    requires Offers(cfg, ProxyOf(f))
    ensures Reachable(cfg, st) && Place(cfg, ProxyOf(f)) in st.cloud
    ensures Attribute(ProxyOf(f)) in st.tracked && Place(cfg, RuleOf(f)) !in st.cloud
  {
    var map_ := if f.AltFront? then AltUrlMap else UrlMap;
    st := Groundwork(cfg, if f.HttpFront? then Http2 else Grpc, map_);
    st := Creating(cfg, st, match f case Ipv6Front => NewTargetProxyIpv6 case AltFront => NewAltTargetProxy case _ => NewTargetProxy,
                   ProxyOf(f), {st.tracked[map_]});
  }

  lemma RuleComesAlive(cfg: Config, f: Front) returns (st: State)
    requires Offers(cfg, ProxyOf(f)) && Offers(cfg, RuleOf(f))
    ensures Reachable(cfg, st) && Place(cfg, RuleOf(f)) in st.cloud
  {
    st := ProxyComesAlive(cfg, f);
    st := Creating(cfg, st, match f case Ipv6Front => NewForwardingRuleIpv6 case AltFront => NewAltForwardingRule case _ => NewForwardingRule,
                   RuleOf(f), {st.tracked[Attribute(ProxyOf(f))]});
  }

  /** Each resource that a class offers is alive in some state its manager reaches by creates
      that all succeed, starting from an empty cloud. */
  lemma EveryOfferComesAlive(cfg: Config, k: Kind) returns (st: State)
    requires Offers(cfg, k)
    ensures Reachable(cfg, st) && Place(cfg, k) in st.cloud
  {
    match k {
      case TargetHttpProxy => st := ProxyComesAlive(cfg, HttpFront);
      case TargetGrpcProxy => st := ProxyComesAlive(cfg, GrpcFront);
      case TargetProxyIpv6 => st := ProxyComesAlive(cfg, Ipv6Front);
      case AltTargetProxy => st := ProxyComesAlive(cfg, AltFront);
      case ForwardingRule => st := RuleComesAlive(cfg, GrpcFront);
      case ForwardingRuleIpv6 => st := RuleComesAlive(cfg, Ipv6Front);
      case AltForwardingRule => st := RuleComesAlive(cfg, AltFront);
      case _ => st := ComesAliveAlone(cfg, k);
    }
  }
}
