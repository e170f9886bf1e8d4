/** What one call on a Traffic Director manager does, as a function on values: the cloud,
    together with the attributes in which the manager keeps track of what it created. */
module TdState {
  import opened Wrappers
  import opened CloudGraph
  import opened TdResources

  datatype Protocol = Unset | Http2 | Grpc

  /** The cloud's answer to an insert or a patch.  After a lost reply the change is there,
      but the manager's call has raised. */
  datatype Reply = Replied | LostReply | Rejected

  /** `tracked` holds the attributes that are set, under the kind each is named after. */
  datatype State = State(cloud: Cloud, tracked: map<Kind, Key>, protocol: Protocol, proxyIsHttp: bool)

  /** Both kinds of target proxy are kept in the attribute `target_proxy`. */
  function AttrOf(k: Kind): Kind {
    if k == TargetHttpProxy then TargetGrpcProxy else k
  }

  datatype Request =
    | NewHealthCheck
    | NewBackendService(protocol: Protocol, clientTls: bool)
    | NewAltBackendService
    | NewAffinityBackendService
    | NewUrlMap
    | NewUrlMapWithContent(refs: set<Key>)
    | NewAltUrlMap(service: Option<Key>)
    | NewTargetProxy
    | NewTargetProxyIpv6
    | NewAltTargetProxy
    | NewForwardingRule
    | NewForwardingRuleIpv6
    | NewAltForwardingRule
    | NewMesh
    | NewGrpcRoute
    | NewGrpcRouteWithContent(refs: set<Key>)
    | NewHttpRouteWithContent(refs: set<Key>)
    | NewServerTlsPolicy
    | NewClientTlsPolicy
    | NewAuthzPolicy
    | NewEndpointPolicy
    | NewNeg
    | PatchUrlMap(newService: Key)
    | PatchBackends(backendService: Kind, refs: set<Key>)
    | ApplyClientTls

  datatype ApiCall = Insert(kind: Kind, refs: set<Key>) | Update(kind: Kind, refs: set<Key>)

  /** The resources among `attrs` that are tracked. */
  function Refs(st: State, attrs: set<Kind>): set<Key> {
    set a | a in attrs && a in st.tracked :: st.tracked[a]
  }

  function InsertIf(st: State, kind: Kind, needed: set<Kind>): Option<ApiCall> {
    if needed <= st.tracked.Keys then Some(Insert(kind, Refs(st, needed))) else None
  }

  function MeshKind(cfg: Config): Kind {
    if cfg.manager.CloudRun? then CloudRunMesh else Mesh
  }

  predicate IsBackend(key: Key) {
    key.kind.Neg? || key.kind.Foreign?
  }

  /** The API call a request comes down to; None when the manager raises before making it,
      because an attribute it needs is not set (or, for the health check, already is). */
  function Prepare(cfg: Config, st: State, req: Request): Option<ApiCall> {
    match req
    case NewHealthCheck => if HealthCheck in st.tracked then None else Some(Insert(HealthCheck, {}))
    case NewBackendService(p, tls) =>
      Some(Insert(BackendService, Refs(st, if tls then {HealthCheck, ClientTlsPolicy} else {HealthCheck})))
    case NewAltBackendService => Some(Insert(AltBackendService, Refs(st, {HealthCheck})))
    case NewAffinityBackendService => Some(Insert(AffinityBackendService, Refs(st, {HealthCheck})))
    case NewUrlMap => InsertIf(st, UrlMap, {BackendService})
    case NewUrlMapWithContent(refs) => Some(Insert(UrlMap, refs))
    case NewAltUrlMap(service) =>
      if service.Some? then Some(Insert(AltUrlMap, {service.value})) else InsertIf(st, AltUrlMap, {AltBackendService})
    case NewTargetProxy =>
      if st.protocol.Unset? then None
      else InsertIf(st, if st.protocol.Http2? then TargetHttpProxy else TargetGrpcProxy, {UrlMap})
    case NewTargetProxyIpv6 => InsertIf(st, TargetProxyIpv6, {UrlMap})
    case NewAltTargetProxy => if st.protocol.Grpc? then InsertIf(st, AltTargetProxy, {AltUrlMap}) else None
    case NewForwardingRule => InsertIf(st, ForwardingRule, {TargetGrpcProxy})
    case NewForwardingRuleIpv6 => InsertIf(st, ForwardingRuleIpv6, {TargetProxyIpv6})
    case NewAltForwardingRule => InsertIf(st, AltForwardingRule, {AltTargetProxy})
    case NewMesh => Some(Insert(MeshKind(cfg), {}))
    case NewGrpcRoute => InsertIf(st, GrpcRoute, {BackendService, MeshKind(cfg)})
    case NewGrpcRouteWithContent(refs) => Some(Insert(GrpcRoute, refs))
    case NewHttpRouteWithContent(refs) => Some(Insert(HttpRoute, refs))
    case NewServerTlsPolicy => Some(Insert(ServerTlsPolicy, {}))
    case NewClientTlsPolicy => Some(Insert(ClientTlsPolicy, {}))
    case NewAuthzPolicy => Some(Insert(AuthzPolicy, {}))
    case NewEndpointPolicy => Some(Insert(EndpointPolicy, Refs(st, {ServerTlsPolicy, AuthzPolicy})))
    case NewNeg => Some(Insert(Neg, {}))
    case PatchUrlMap(service) => if UrlMap in st.tracked then Some(Update(UrlMap, {service})) else None
    case PatchBackends(bs, refs) =>
      if IsBackendService(bs) && bs in st.tracked && Created(cfg, bs) in st.cloud
      then Some(Update(bs, (set t | t in st.cloud[Created(cfg, bs)] && !IsBackend(t)) + refs))
      else None
    case ApplyClientTls =>
      if {ClientTlsPolicy, BackendService} <= st.tracked.Keys && Created(cfg, BackendService) in st.cloud
      then Some(Update(BackendService, st.cloud[Created(cfg, BackendService)] + {st.tracked[ClientTlsPolicy]}))
      else None
  }

  /** The flag `target_proxy_is_http` is set on the way to the API call, whatever follows. */
  function BeforeCall(st: State, req: Request): State {
    if req.NewTargetProxy? && !st.protocol.Unset? then st.(proxyIsHttp := st.protocol.Http2?) else st
  }

  /** The API call and what the manager records of it. */
  function MakeCall(cfg: Config, st: State, call: ApiCall, reply: Reply, protocol: Protocol): State {
    var key := Created(cfg, call.kind);
    if call.kind !in Plan(cfg) || reply.Rejected? then st
    else if call.Update? then (if key in st.cloud then st.(cloud := st.cloud[key := call.refs]) else st)
    else if key in st.cloud then st
    else if reply.LostReply? then st.(cloud := st.cloud[key := call.refs])
    else State(st.cloud[key := call.refs], st.tracked[AttrOf(call.kind) := key], protocol, st.proxyIsHttp)
  }

  function DoRequest(cfg: Config, st: State, req: Request, reply: Reply): State {
    var ready := BeforeCall(st, req);
    match Prepare(cfg, st, req)
    case None => ready
    case Some(call) =>
      MakeCall(cfg, ready, call, reply, if req.NewBackendService? then req.protocol else st.protocol)
  }

  // ---------- Deletes ----------

  /** Whether `delete_<kind>(force)` makes its API call. */
  predicate Deletes(st: State, kind: Kind, force: bool) {
    force || (AttrOf(kind) in st.tracked && (kind == TargetHttpProxy ==> st.proxyIsHttp))
  }

  /** The attribute the delete clears; for the alternative URL map it is the wrong one. */
  function Clears(kind: Kind): Kind {
    if kind == AltUrlMap then UrlMap else AttrOf(kind)
  }

  function DoDelete(cfg: Config, st: State, kind: Kind, force: bool): State {
    if !Deletes(st, kind, force) then st
    else st.(cloud := CloudGraph.Delete(st.cloud, Deleted(cfg, kind)),
             tracked := st.tracked - {Clears(kind)},
             proxyIsHttp := st.proxyIsHttp && AttrOf(kind) != TargetGrpcProxy)
  }

  function RunDeletes(cfg: Config, st: State, kinds: seq<Kind>, force: bool): State {
    if kinds == [] then st
    else DoDelete(cfg, RunDeletes(cfg, st, kinds[..|kinds| - 1], force), kinds[|kinds| - 1], force)
  }

  /** `cleanup(force)` of the manager. */
  function Cleanup(cfg: Config, st: State, force: bool): State {
    RunDeletes(cfg, st, Plan(cfg), force)
  }

  lemma {:induction false} RunDeletesAppend(cfg: Config, st: State, a: seq<Kind>, b: seq<Kind>, force: bool)
    ensures RunDeletes(cfg, st, a + b, force) == RunDeletes(cfg, RunDeletes(cfg, st, a, force), b, force)
  {
    if b == [] {
      assert a + b == a;
    } else {
      var l := |b| - 1;
      assert (a + b)[..|a + b| - 1] == a + b[..l];
      RunDeletesAppend(cfg, st, a, b[..l], force);
    }
  }

  lemma RunDeletesOne(cfg: Config, st: State, k: Kind, force: bool)
    ensures RunDeletes(cfg, st, [k], force) == DoDelete(cfg, st, k, force)
  {
  }

  // ---------- Runs ----------

  datatype Op = Ask(req: Request, reply: Reply) | Remove(kind: Kind, force: bool)

  /** Content supplied by the caller refers only to what the resource may refer to. */
  predicate GoodContent(cfg: Config, from: Kind, refs: set<Key>) {
    forall t :: t in refs ==> MayRefer(from, t.kind) && (Owned(cfg, t) || t.kind.Foreign?)
  }

  predicate Good(cfg: Config, op: Op) {
    match op
    case Remove(k, force) => k in Plan(cfg)
    case Ask(NewUrlMapWithContent(refs), _) => GoodContent(cfg, UrlMap, refs)
    case Ask(NewAltUrlMap(Some(service)), _) => GoodContent(cfg, AltUrlMap, {service})
    case Ask(NewGrpcRouteWithContent(refs), _) => GoodContent(cfg, GrpcRoute, refs)
    case Ask(NewHttpRouteWithContent(refs), _) => GoodContent(cfg, HttpRoute, refs)
    case Ask(PatchUrlMap(service), _) => GoodContent(cfg, UrlMap, {service})
    case Ask(PatchBackends(bs, refs), _) => GoodContent(cfg, BackendService, refs) && forall t :: t in refs ==> IsBackend(t)
    case _ => true
  }

  function Do(cfg: Config, st: State, op: Op): State {
    match op
    case Ask(req, reply) => DoRequest(cfg, st, req, reply)
    case Remove(k, force) => DoDelete(cfg, st, k, force)
  }

  function Execute(cfg: Config, st: State, ops: seq<Op>): State {
    if ops == [] then st else Do(cfg, Execute(cfg, st, ops[..|ops| - 1]), ops[|ops| - 1])
  }

  /** None of the manager's names is in use, and nothing refers to one. */
  ghost predicate Untouched(cfg: Config, cloud: Cloud) {
    && (forall k :: k in cloud ==> !Owned(cfg, k))
    && WellTyped(cfg, cloud)
  }

  function NewManager(cloud: Cloud): State {
    State(cloud, map[], Unset, false)
  }

  ghost predicate ReachedBy(cfg: Config, cloud0: Cloud, ops: seq<Op>, st: State) {
    && Untouched(cfg, cloud0)
    && (forall op :: op in ops ==> Good(cfg, op))
    && st == Execute(cfg, NewManager(cloud0), ops)
  }

  /** Reached from an untouched cloud by any calls, in any order, failed or not. */
  ghost predicate Reachable(cfg: Config, st: State) {
    exists cloud0, ops :: ReachedBy(cfg, cloud0, ops, st)
  }
}
