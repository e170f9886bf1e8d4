/** The manager object and the cloud it talks to. */
module TdManager {
  import opened Wrappers
  import opened CloudGraph
  import opened TdResources
  import opened TdState

  class CloudApi {
    var live: Cloud

    constructor (live: Cloud)
      ensures this.live == live
    {
      this.live := live;
    }

    /** Inserting a name that is in use is an error (409) and changes nothing. */
    method Insert(key: Key, refs: set<Key>, reply: Reply) returns (ok: bool)
      modifies this
      ensures live == if key in old(live) || reply.Rejected? then old(live) else old(live)[key := refs]
      ensures ok == (key !in old(live) && reply.Replied?)
    {
      if key in live || reply.Rejected? { return false; }
      live := live[key := refs];
      ok := reply.Replied?;
    }

    method Update(key: Key, refs: set<Key>, reply: Reply)
      modifies this
      ensures live == if key !in old(live) || reply.Rejected? then old(live) else old(live)[key := refs]
    {
      if key in live && !reply.Rejected? { live := live[key := refs]; }
    }

    /** 404 and "in use" are swallowed by the caller: either way nothing changes. */
    method Remove(key: Key)
      modifies this
      ensures live == CloudGraph.Delete(old(live), key)
    {
      if key in live && !Referred(live, key) { live := live - {key}; }
    }
  }

  class TrafficDirectorManager {
    const cfg: Config
    const cloud: CloudApi
    var tracked: map<Kind, Key>
    var protocol: Protocol
    var proxyIsHttp: bool

    ghost function St(): State
      reads this, cloud
    {
      State(cloud.live, tracked, protocol, proxyIsHttp)
    }

    constructor (cfg: Config, cloud: CloudApi)
      ensures this.cfg == cfg && this.cloud == cloud && St() == NewManager(cloud.live)
    {
      this.cfg, this.cloud := cfg, cloud;
      tracked, protocol, proxyIsHttp := map[], Unset, false;
    }

    /** The API call of a create or patch method, and what the manager keeps of its answer. */
    method MakeCall(call: ApiCall, reply: Reply, newProtocol: Protocol)
      modifies this, cloud
      ensures St() == TdState.MakeCall(cfg, old(St()), call, reply, newProtocol)
    {
      if call.kind !in Plan(cfg) { return; }
      var key := Created(cfg, call.kind);
      if call.Update? {
        cloud.Update(key, call.refs, reply);
        return;
      }
      var ok := cloud.Insert(key, call.refs, reply);
      if ok {
        tracked := tracked[AttrOf(call.kind) := key];
        protocol := newProtocol;
      }
    }

    method CreateHealthCheck(reply: Reply)
      modifies this, cloud
      ensures St() == DoRequest(cfg, old(St()), NewHealthCheck, reply)
    {
      if HealthCheck in tracked { return; }
      AskMakes(cfg, St(), NewHealthCheck, Insert(HealthCheck, {}), reply);
      MakeCall(Insert(HealthCheck, {}), reply, protocol);
    }

    method CreateBackendService(newProtocol: Protocol, clientTls: bool, reply: Reply)
      modifies this, cloud
      ensures St() == DoRequest(cfg, old(St()), NewBackendService(newProtocol, clientTls), reply)
    {
      var refs := {};
      if HealthCheck in tracked { refs := refs + {tracked[HealthCheck]}; }
      if clientTls && ClientTlsPolicy in tracked { refs := refs + {tracked[ClientTlsPolicy]}; }
      assert refs == Refs(St(), if clientTls then {HealthCheck, ClientTlsPolicy} else {HealthCheck});
      MakeCall(Insert(BackendService, refs), reply, newProtocol);
    }

    /** The alternative and the affinity backend service, whose protocols are kept elsewhere. */
    method CreateOtherBackendService(kind: Kind, reply: Reply)
      requires kind == AltBackendService || kind == AffinityBackendService
      modifies this, cloud
      ensures kind == AltBackendService ==> St() == DoRequest(cfg, old(St()), NewAltBackendService, reply)
      ensures kind == AffinityBackendService ==> St() == DoRequest(cfg, old(St()), NewAffinityBackendService, reply)
    {
      var refs := {};
      if HealthCheck in tracked { refs := {tracked[HealthCheck]}; }
      assert refs == Refs(St(), {HealthCheck});
      MakeCall(Insert(kind, refs), reply, protocol);
    }

    method CreateUrlMap(reply: Reply)
      modifies this, cloud
      ensures St() == DoRequest(cfg, old(St()), NewUrlMap, reply)
    {
      if BackendService !in tracked { return; }
      RefsOfOne(St(), BackendService);
      AskMakes(cfg, St(), NewUrlMap, Insert(UrlMap, {tracked[BackendService]}), reply);
      MakeCall(Insert(UrlMap, {tracked[BackendService]}), reply, protocol);
    }

    method CreateUrlMapWithContent(refs: set<Key>, reply: Reply)
      modifies this, cloud
      ensures St() == DoRequest(cfg, old(St()), NewUrlMapWithContent(refs), reply)
    {
      AskMakes(cfg, St(), NewUrlMapWithContent(refs), Insert(UrlMap, refs), reply);
      MakeCall(Insert(UrlMap, refs), reply, protocol);
    }

    method CreateAlternativeUrlMap(service: Option<Key>, reply: Reply)
      modifies this, cloud
      ensures St() == DoRequest(cfg, old(St()), NewAltUrlMap(service), reply)
    {
      var target := service;
      if target.None? && AltBackendService in tracked { target := Some(tracked[AltBackendService]); }
      if target.None? { return; }
      RefsOfOne(St(), AltBackendService);
      AskMakes(cfg, St(), NewAltUrlMap(service), Insert(AltUrlMap, {target.value}), reply);
      MakeCall(Insert(AltUrlMap, {target.value}), reply, protocol);
    }

    method CreateTargetProxy(reply: Reply)
      modifies this, cloud
      ensures St() == DoRequest(cfg, old(St()), NewTargetProxy, reply)
    {
      match protocol {
        case Grpc => proxyIsHttp := false;
        case Http2 => proxyIsHttp := true;
        case Unset => return;
      }
      if UrlMap !in tracked { return; }
      RefsOfOne(St(), UrlMap);
      MakeCall(Insert(if proxyIsHttp then TargetHttpProxy else TargetGrpcProxy, {tracked[UrlMap]}), reply, protocol);
    }

    method CreateTargetProxyIpv6(reply: Reply)
      modifies this, cloud
      ensures St() == DoRequest(cfg, old(St()), NewTargetProxyIpv6, reply)
    {
      if UrlMap !in tracked { return; }
      RefsOfOne(St(), UrlMap);
      AskMakes(cfg, St(), NewTargetProxyIpv6, Insert(TargetProxyIpv6, {tracked[UrlMap]}), reply);
      MakeCall(Insert(TargetProxyIpv6, {tracked[UrlMap]}), reply, protocol);
    }

    method CreateAlternativeTargetProxy(reply: Reply)
      modifies this, cloud
      ensures St() == DoRequest(cfg, old(St()), NewAltTargetProxy, reply)
    {
      if protocol != Grpc { return; }
      if AltUrlMap !in tracked { return; }
      RefsOfOne(St(), AltUrlMap);
      AskMakes(cfg, St(), NewAltTargetProxy, Insert(AltTargetProxy, {tracked[AltUrlMap]}), reply);
      MakeCall(Insert(AltTargetProxy, {tracked[AltUrlMap]}), reply, protocol);
    }

    method CreateForwardingRule(reply: Reply)
      modifies this, cloud
      ensures St() == DoRequest(cfg, old(St()), NewForwardingRule, reply)
    {
      if TargetGrpcProxy !in tracked { return; }
      RefsOfOne(St(), TargetGrpcProxy);
      AskMakes(cfg, St(), NewForwardingRule, Insert(ForwardingRule, {tracked[TargetGrpcProxy]}), reply);
      MakeCall(Insert(ForwardingRule, {tracked[TargetGrpcProxy]}), reply, protocol);
    }

    method CreateForwardingRuleIpv6(reply: Reply)
      modifies this, cloud
      ensures St() == DoRequest(cfg, old(St()), NewForwardingRuleIpv6, reply)
    {
      if TargetProxyIpv6 !in tracked { return; }
      RefsOfOne(St(), TargetProxyIpv6);
      AskMakes(cfg, St(), NewForwardingRuleIpv6, Insert(ForwardingRuleIpv6, {tracked[TargetProxyIpv6]}), reply);
      MakeCall(Insert(ForwardingRuleIpv6, {tracked[TargetProxyIpv6]}), reply, protocol);
    }

    method CreateAlternativeForwardingRule(reply: Reply)
      modifies this, cloud
      ensures St() == DoRequest(cfg, old(St()), NewAltForwardingRule, reply)
    {
      if AltTargetProxy !in tracked { return; }
      RefsOfOne(St(), AltTargetProxy);
      AskMakes(cfg, St(), NewAltForwardingRule, Insert(AltForwardingRule, {tracked[AltTargetProxy]}), reply);
      MakeCall(Insert(AltForwardingRule, {tracked[AltTargetProxy]}), reply, protocol);
    }

    method CreateMesh(reply: Reply)
      modifies this, cloud
      ensures St() == DoRequest(cfg, old(St()), NewMesh, reply)
    {
      AskMakes(cfg, St(), NewMesh, Insert(MeshKind(cfg), {}), reply);
      MakeCall(Insert(MeshKind(cfg), {}), reply, protocol);
    }

    method CreateGrpcRoute(reply: Reply)
      modifies this, cloud
      ensures St() == DoRequest(cfg, old(St()), NewGrpcRoute, reply)
    {
      PrepareGrpcRoute(cfg, St());
      if BackendService !in tracked || MeshKind(cfg) !in tracked {
        AskNothing(cfg, St(), NewGrpcRoute, reply);
        return;
      }
      var call := Insert(GrpcRoute, {tracked[BackendService], tracked[MeshKind(cfg)]});
      AskMakes(cfg, St(), NewGrpcRoute, call, reply);
      MakeCall(call, reply, protocol);
    }

    method CreateGrpcRouteWithContent(refs: set<Key>, reply: Reply)
      modifies this, cloud
      ensures St() == DoRequest(cfg, old(St()), NewGrpcRouteWithContent(refs), reply)
    {
      AskMakes(cfg, St(), NewGrpcRouteWithContent(refs), Insert(GrpcRoute, refs), reply);
      MakeCall(Insert(GrpcRoute, refs), reply, protocol);
    }

    method CreateHttpRouteWithContent(refs: set<Key>, reply: Reply)
      modifies this, cloud
      ensures St() == DoRequest(cfg, old(St()), NewHttpRouteWithContent(refs), reply)
    {
      AskMakes(cfg, St(), NewHttpRouteWithContent(refs), Insert(HttpRoute, refs), reply);
      MakeCall(Insert(HttpRoute, refs), reply, protocol);
    }

    method CreateServerTlsPolicy(reply: Reply)
      modifies this, cloud
      ensures St() == DoRequest(cfg, old(St()), NewServerTlsPolicy, reply)
    {
      AskMakes(cfg, St(), NewServerTlsPolicy, Insert(ServerTlsPolicy, {}), reply);
      MakeCall(Insert(ServerTlsPolicy, {}), reply, protocol);
    }

    method CreateClientTlsPolicy(reply: Reply)
      modifies this, cloud
      ensures St() == DoRequest(cfg, old(St()), NewClientTlsPolicy, reply)
    {
      AskMakes(cfg, St(), NewClientTlsPolicy, Insert(ClientTlsPolicy, {}), reply);
      MakeCall(Insert(ClientTlsPolicy, {}), reply, protocol);
    }

    method CreateAuthzPolicy(reply: Reply)
      modifies this, cloud
      ensures St() == DoRequest(cfg, old(St()), NewAuthzPolicy, reply)
    {
      AskMakes(cfg, St(), NewAuthzPolicy, Insert(AuthzPolicy, {}), reply);
      MakeCall(Insert(AuthzPolicy, {}), reply, protocol);
    }

    method CreateEndpointPolicy(reply: Reply)
      modifies this, cloud
      ensures St() == DoRequest(cfg, old(St()), NewEndpointPolicy, reply)
    {
      var refs := {};
      if ServerTlsPolicy in tracked { refs := refs + {tracked[ServerTlsPolicy]}; }
      if AuthzPolicy in tracked { refs := refs + {tracked[AuthzPolicy]}; }
      assert refs == Refs(St(), {ServerTlsPolicy, AuthzPolicy});
      AskMakes(cfg, St(), NewEndpointPolicy, Insert(EndpointPolicy, refs), reply);
      MakeCall(Insert(EndpointPolicy, refs), reply, protocol);
    }

    method CreateNegServerless(reply: Reply)
      modifies this, cloud
      ensures St() == DoRequest(cfg, old(St()), NewNeg, reply)
    {
      AskMakes(cfg, St(), NewNeg, Insert(Neg, {}), reply);
      MakeCall(Insert(Neg, {}), reply, protocol);
    }

    method PatchUrlMap(service: Key, reply: Reply)
      modifies this, cloud
      ensures St() == DoRequest(cfg, old(St()), TdState.PatchUrlMap(service), reply)
    {
      if UrlMap !in tracked { return; }
      AskMakes(cfg, St(), TdState.PatchUrlMap(service), Update(UrlMap, {service}), reply);
      MakeCall(Update(UrlMap, {service}), reply, protocol);
    }

    /** Sets the backends of a backend service and keeps what else it refers to. */
    method PatchBackends(kind: Kind, backends: set<Key>, reply: Reply)
      modifies this, cloud
      ensures St() == DoRequest(cfg, old(St()), TdState.PatchBackends(kind, backends), reply)
    {
      PreparePatch(cfg, St(), kind, backends);
      var key := Created(cfg, kind);
      if !IsBackendService(kind) || kind !in tracked || key !in cloud.live {
        AskNothing(cfg, St(), TdState.PatchBackends(kind, backends), reply);
        return;
      }
      var call := Update(kind, (set t | t in cloud.live[key] && !IsBackend(t)) + backends);
      AskMakes(cfg, St(), TdState.PatchBackends(kind, backends), call, reply);
      MakeCall(call, reply, protocol);
    }

    method ApplyClientTlsPolicy(reply: Reply)
      modifies this, cloud
      ensures St() == DoRequest(cfg, old(St()), ApplyClientTls, reply)
    {
      PrepareClientTls(cfg, St());
      var key := Created(cfg, BackendService);
      if ClientTlsPolicy !in tracked || BackendService !in tracked || key !in cloud.live {
        AskNothing(cfg, St(), ApplyClientTls, reply);
        return;
      }
      var call := Update(BackendService, cloud.live[key] + {tracked[ClientTlsPolicy]});
      AskMakes(cfg, St(), ApplyClientTls, call, reply);
      MakeCall(call, reply, protocol);
    }

    /** Any of the create and patch methods. */
    method Ask(req: Request, reply: Reply)
      modifies this, cloud
      ensures St() == DoRequest(cfg, old(St()), req, reply)
    {
      match req {
        case NewHealthCheck => CreateHealthCheck(reply);
        case NewBackendService(newProtocol, clientTls) => CreateBackendService(newProtocol, clientTls, reply);
        case NewAltBackendService => CreateOtherBackendService(AltBackendService, reply);
        case NewAffinityBackendService => CreateOtherBackendService(AffinityBackendService, reply);
        case NewUrlMap => CreateUrlMap(reply);
        case NewUrlMapWithContent(refs) => CreateUrlMapWithContent(refs, reply);
        case NewAltUrlMap(service) => CreateAlternativeUrlMap(service, reply);
        case NewTargetProxy => CreateTargetProxy(reply);
        case NewTargetProxyIpv6 => CreateTargetProxyIpv6(reply);
        case NewAltTargetProxy => CreateAlternativeTargetProxy(reply);
        case NewForwardingRule => CreateForwardingRule(reply);
        case NewForwardingRuleIpv6 => CreateForwardingRuleIpv6(reply);
        case NewAltForwardingRule => CreateAlternativeForwardingRule(reply);
        case NewMesh => CreateMesh(reply);
        case NewGrpcRoute => CreateGrpcRoute(reply);
        case NewGrpcRouteWithContent(refs) => CreateGrpcRouteWithContent(refs, reply);
        case NewHttpRouteWithContent(refs) => CreateHttpRouteWithContent(refs, reply);
        case NewServerTlsPolicy => CreateServerTlsPolicy(reply);
        case NewClientTlsPolicy => CreateClientTlsPolicy(reply);
        case NewAuthzPolicy => CreateAuthzPolicy(reply);
        case NewEndpointPolicy => CreateEndpointPolicy(reply);
        case NewNeg => CreateNegServerless(reply);
        case PatchUrlMap(service) => PatchUrlMap(service, reply);
        case PatchBackends(kind, backends) => PatchBackends(kind, backends, reply);
        case ApplyClientTls => ApplyClientTlsPolicy(reply);
      }
    }

    /** Any of the delete methods. */
    method Remove(kind: Kind, force: bool)
      modifies this, cloud
      ensures St() == RunDeletes(cfg, old(St()), [kind], force)
    {
      RunDeletesOne(cfg, St(), kind, force);
      if !force {
        if AttrOf(kind) !in tracked { return; }
        if kind == TargetHttpProxy && !proxyIsHttp { return; }
      }
      cloud.Remove(Deleted(cfg, kind));
      tracked := tracked - {Clears(kind)};
      if AttrOf(kind) == TargetGrpcProxy { proxyIsHttp := false; }
    }

    /** `TrafficDirectorManager.cleanup`, firewall rules aside. */
    method CleanupBase(force: bool)
      modifies this, cloud
      ensures St() == RunDeletes(cfg, old(St()), BasePlan(cfg), force)
    {
      ghost var st0 := St();
      Remove(ForwardingRule, force);
      Remove(AltForwardingRule, force);
      Remove(TargetHttpProxy, force);
      Remove(TargetGrpcProxy, force);
      Deletes4(cfg, st0, FRONT_KINDS, force);
      ghost var st1 := St();
      if cfg.dualstack {
        Remove(ForwardingRuleIpv6, force);
        Remove(TargetProxyIpv6, force);
        RunDeletesAppend(cfg, st1, [ForwardingRuleIpv6], [TargetProxyIpv6], force);
      }
      ghost var ipv6 := if cfg.dualstack then IPV6_KINDS else [];
      assert St() == RunDeletes(cfg, st1, ipv6, force);
      ghost var st2 := St();
      Remove(AltTargetProxy, force);
      Remove(UrlMap, force);
      Remove(AltUrlMap, force);
      Remove(BackendService, force);
      Remove(AltBackendService, force);
      Remove(AffinityBackendService, force);
      Remove(HealthCheck, force);
      Deletes7(cfg, st2, BACK_KINDS, force);
      RunDeletesAppend(cfg, st0, FRONT_KINDS, ipv6, force);
      RunDeletesAppend(cfg, st0, FRONT_KINDS + ipv6, BACK_KINDS, force);
    }

    method CleanupSecure(force: bool)
      modifies this, cloud
      ensures St() == RunDeletes(cfg, old(St()), SecurePlan(cfg), force)
    {
      ghost var st0 := St();
      CleanupBase(force);
      ghost var st1 := St();
      Remove(EndpointPolicy, force);
      Remove(ServerTlsPolicy, force);
      Remove(ClientTlsPolicy, force);
      Remove(AuthzPolicy, force);
      Deletes4(cfg, st1, SECURE_KINDS, force);
      RunDeletesAppend(cfg, st0, BasePlan(cfg), SECURE_KINDS, force);
    }

    method CleanupAppNet(force: bool)
      modifies this, cloud
      ensures St() == RunDeletes(cfg, old(St()), [HttpRoute, GrpcRoute, MeshKind(cfg)] + BasePlan(cfg), force)
    {
      ghost var st0 := St();
      Remove(HttpRoute, force);
      Remove(GrpcRoute, force);
      Remove(MeshKind(cfg), force);
      RunDeletesAppend(cfg, st0, [HttpRoute], [GrpcRoute], force);
      RunDeletesAppend(cfg, st0, [HttpRoute] + [GrpcRoute], [MeshKind(cfg)], force);
      ghost var front := [HttpRoute, GrpcRoute, MeshKind(cfg)];
      assert front == [HttpRoute] + [GrpcRoute] + [MeshKind(cfg)];
      CleanupBase(force);
      RunDeletesAppend(cfg, st0, front, BasePlan(cfg), force);
    }

    /** `cleanup(force=...)` of the manager's class. */
    method Cleanup(force: bool)
      modifies this, cloud
      ensures St() == TdState.Cleanup(cfg, old(St()), force)
    {
      ghost var st0 := St();
      match cfg.manager {
        case Plain => CleanupBase(force);
        case AppNet => CleanupAppNet(force);
        case Secure => CleanupSecure(force);
        case Spiffe =>
          Remove(GrpcRoute, force);
          Remove(Mesh, force);
          RunDeletesAppend(cfg, st0, [GrpcRoute], [Mesh], force);
          assert [GrpcRoute, Mesh] == [GrpcRoute] + [Mesh];
          CleanupSecure(force);
          RunDeletesAppend(cfg, st0, [GrpcRoute, Mesh], SecurePlan(cfg), force);
        case CloudRun =>
          CleanupAppNet(force);
          Remove(Neg, force);
          RunDeletesAppend(cfg, st0, [HttpRoute, GrpcRoute, CloudRunMesh] + BasePlan(cfg), [Neg], force);
      }
    }
  }

  /** What a request comes down to, the backend service's and the target proxy's aside. */
  lemma AskMakes(cfg: Config, st: State, req: Request, call: ApiCall, reply: Reply)
    requires Prepare(cfg, st, req) == Some(call) && !req.NewTargetProxy? && !req.NewBackendService?
    ensures DoRequest(cfg, st, req, reply) == TdState.MakeCall(cfg, st, call, reply, st.protocol)
  {
  }

  lemma AskNothing(cfg: Config, st: State, req: Request, reply: Reply)
    requires Prepare(cfg, st, req) == None && !req.NewTargetProxy?
    ensures DoRequest(cfg, st, req, reply) == st
  {
  }

  lemma PreparePatch(cfg: Config, st: State, kind: Kind, backends: set<Key>)
    ensures var key := Created(cfg, kind);
            Prepare(cfg, st, PatchBackends(kind, backends))
            == if IsBackendService(kind) && kind in st.tracked && key in st.cloud
               then Some(Update(kind, (set t | t in st.cloud[key] && !IsBackend(t)) + backends))
               else None
  {
  }

  lemma PrepareClientTls(cfg: Config, st: State)
    ensures var key := Created(cfg, BackendService);
            Prepare(cfg, st, ApplyClientTls)
            == if ClientTlsPolicy in st.tracked && BackendService in st.tracked && key in st.cloud
               then Some(Update(BackendService, st.cloud[key] + {st.tracked[ClientTlsPolicy]}))
               else None
  {
  }

  lemma PrepareGrpcRoute(cfg: Config, st: State)
    ensures Prepare(cfg, st, NewGrpcRoute)
            == if BackendService in st.tracked && MeshKind(cfg) in st.tracked
               then Some(Insert(GrpcRoute, {st.tracked[BackendService], st.tracked[MeshKind(cfg)]}))
               else None
  {
    if BackendService in st.tracked && MeshKind(cfg) in st.tracked {
      assert Refs(st, {BackendService, MeshKind(cfg)}) == {st.tracked[BackendService], st.tracked[MeshKind(cfg)]};
    }
  }

  lemma RefsOfOne(st: State, attr: Kind)
    ensures Refs(st, {attr}) == if attr in st.tracked then {st.tracked[attr]} else {}
  {
  }

  lemma Deletes4(cfg: Config, st: State, ks: seq<Kind>, force: bool)
    requires |ks| == 4
    ensures var a := RunDeletes(cfg, st, [ks[0]], force);
            var b := RunDeletes(cfg, a, [ks[1]], force);
            var c := RunDeletes(cfg, b, [ks[2]], force);
            RunDeletes(cfg, st, ks, force) == RunDeletes(cfg, c, [ks[3]], force)
  {
    RunDeletesAppend(cfg, st, [ks[0]], [ks[1]], force);
    RunDeletesAppend(cfg, st, [ks[0]] + [ks[1]], [ks[2]], force);
    RunDeletesAppend(cfg, st, [ks[0]] + [ks[1]] + [ks[2]], [ks[3]], force);
    assert ks == [ks[0]] + [ks[1]] + [ks[2]] + [ks[3]];
  }

  lemma Deletes7(cfg: Config, st: State, ks: seq<Kind>, force: bool)
    requires |ks| == 7
    ensures var a := RunDeletes(cfg, st, [ks[0]], force);
            var b := RunDeletes(cfg, a, [ks[1]], force);
            var c := RunDeletes(cfg, b, [ks[2]], force);
            var d := RunDeletes(cfg, c, [ks[3]], force);
            var e := RunDeletes(cfg, d, [ks[4]], force);
            var f := RunDeletes(cfg, e, [ks[5]], force);
            RunDeletes(cfg, st, ks, force) == RunDeletes(cfg, f, [ks[6]], force)
  {
    Deletes4(cfg, st, ks[..4], force);
    Deletes4(cfg, RunDeletes(cfg, st, ks[..3], force), ks[3..], force);
    RunDeletesAppend(cfg, st, ks[..3], ks[3..], force);
    RunDeletesAppend(cfg, st, ks[..3], [ks[3]], force);
    assert ks == ks[..3] + ks[3..] && ks[..4] == ks[..3] + [ks[3]];
  }
}
