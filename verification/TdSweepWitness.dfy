/** A state in which the sweep does leave something, reached by creates that succeed. */
module TdSweepWitness {
  import opened Wrappers
  import opened CloudGraph
  import opened TdResources
  import opened TdState
  import opened TdCleanup
  import opened TdTheorems
  import opened TdSweep

  lemma SpiffeKinds(cfg: Config)
    requires cfg.manager.Spiffe?
    ensures GrpcRoute in Plan(cfg) && Mesh in Plan(cfg)
    ensures BackendService in Plan(cfg) && ClientTlsPolicy in Plan(cfg)
  {
    BaseKindsInPlan(cfg);
    assert [GrpcRoute, Mesh][0] == GrpcRoute && [GrpcRoute, Mesh][1] == Mesh;
    assert SECURE_KINDS[2] == ClientTlsPolicy;
    assert Plan(cfg) == [GrpcRoute, Mesh] + (BasePlan(cfg) + SECURE_KINDS);
  }

  lemma CanCreateClientTls(cfg: Config, st: State)
    requires cfg.manager.Spiffe? && Created(cfg, ClientTlsPolicy) !in st.cloud
    ensures CanCreate(cfg, st, NewClientTlsPolicy, ClientTlsPolicy, {})
  {
    SpiffeKinds(cfg);
    NoContentIsGood(cfg, NewClientTlsPolicy, Replied);
  }

  lemma CanCreateSecureBackendService(cfg: Config, st: State)
    requires cfg.manager.Spiffe? && Created(cfg, BackendService) !in st.cloud
    requires st.tracked == map[ClientTlsPolicy := CLIENT_TLS]
    ensures CanCreate(cfg, st, NewBackendService(Grpc, true), BackendService, {CLIENT_TLS})
  {
    SpiffeKinds(cfg);
    assert Refs(st, {HealthCheck, ClientTlsPolicy}) == {CLIENT_TLS};
  }

  lemma CanCreateMesh(cfg: Config, st: State)
    requires cfg.manager.Spiffe? && Created(cfg, Mesh) !in st.cloud
    ensures CanCreate(cfg, st, NewMesh, Mesh, {})
  {
    SpiffeKinds(cfg);
    NoContentIsGood(cfg, NewMesh, Replied);
  }

  lemma CanCreateGrpcRoute(cfg: Config, st: State)
    requires cfg.manager.Spiffe? && Created(cfg, GrpcRoute) !in st.cloud
    requires BackendService in st.tracked && Mesh in st.tracked
    ensures CanCreate(cfg, st, NewGrpcRoute, GrpcRoute, {st.tracked[BackendService], st.tracked[Mesh]})
  {
    SpiffeKinds(cfg);
    NoContentIsGood(cfg, NewGrpcRoute, Replied);
    assert Refs(st, {BackendService, Mesh}) == {st.tracked[BackendService], st.tracked[Mesh]};
  }

  /** The security half of a setup: the policy, and the backend service that uses it. */
  lemma SecuritySetupReaches(cfg: Config) returns (st: State)
    requires cfg.manager.Spiffe? && cfg.region.None?
    ensures Reachable(cfg, st)
    ensures st.cloud == map[CLIENT_TLS := {}, Created(cfg, BackendService) := {CLIENT_TLS}]
    ensures st.tracked == map[ClientTlsPolicy := CLIENT_TLS, BackendService := Created(cfg, BackendService)]
  {
    st := FreshIsReachable(cfg, map[]);
    CanCreateClientTls(cfg, st);
    st := CreateSucceeds(cfg, st, NewClientTlsPolicy, ClientTlsPolicy, {});
    CanCreateSecureBackendService(cfg, st);
    st := CreateSucceeds(cfg, st, NewBackendService(Grpc, true), BackendService, {CLIENT_TLS});
  }

  /** ... and the routing half. */
  lemma SpiffeSetupReaches(cfg: Config) returns (st: State)
    requires cfg.manager.Spiffe? && cfg.region.None?
    ensures Reachable(cfg, st)
    ensures CLIENT_TLS in st.cloud && Created(cfg, BackendService) in st.cloud && Created(cfg, GrpcRoute) in st.cloud
    ensures st.cloud[Created(cfg, BackendService)] == {CLIENT_TLS}
    ensures Created(cfg, BackendService) in st.cloud[Created(cfg, GrpcRoute)]
    ensures forall k :: k in st.cloud
              ==> k in {CLIENT_TLS, Created(cfg, BackendService), Created(cfg, Mesh), Created(cfg, GrpcRoute)}
  {
    st := SecuritySetupReaches(cfg);
    CanCreateMesh(cfg, st);
    st := CreateSucceeds(cfg, st, NewMesh, Mesh, {});
    CanCreateGrpcRoute(cfg, st);
    st := CreateSucceeds(cfg, st, NewGrpcRoute, GrpcRoute, {st.tracked[BackendService], st.tracked[Mesh]});
  }

  lemma HoldsClientTls(cfg: Config, cloud: Cloud)
    requires cfg.manager.Spiffe? && cfg.region.None?
    requires CLIENT_TLS in cloud && Created(cfg, BackendService) in cloud && Created(cfg, GrpcRoute) in cloud
    requires CLIENT_TLS in cloud[Created(cfg, BackendService)]
    requires Created(cfg, BackendService) in cloud[Created(cfg, GrpcRoute)]
    ensures RouteHoldsClientTls(cloud)
  {
  }

  lemma SpiffeOwns(cfg: Config, k: Key)
    requires cfg.manager.Spiffe? && cfg.region.None?
    requires k in {CLIENT_TLS, Created(cfg, BackendService), Created(cfg, Mesh), Created(cfg, GrpcRoute)}
    ensures Owned(cfg, k)
  {
    SpiffeKinds(cfg);
  }

  lemma OwnedNotForeign(cfg: Config, k: Key)
    requires Owned(cfg, k)
    ensures !k.kind.Foreign?
  {
    PlanAscending(cfg);
  }

  lemma LeftByItself(cfg: Config, st: State)
    requires Reachable(cfg, st) && forall k :: k in st.cloud ==> Owned(cfg, k)
    ensures LeftBy(cfg, st.cloud)
  {
  }

  /** A Spiffe manager does get into that state, and the sweep leaves its policy. */
  lemma SweepCanLeaveClientTls(cfg: Config, dualstack: bool) returns (st: State)
    requires cfg.manager.Spiffe? && cfg.region.None? && (cfg.dualstack ==> dualstack)
    ensures Reachable(cfg, st) && LeftBy(cfg, st.cloud) && RouteHoldsClientTls(st.cloud)
    ensures CLIENT_TLS in Sweep(st.cloud, dualstack)
  {
    st := SpiffeSetupReaches(cfg);
    HoldsClientTls(cfg, st.cloud);
    forall k | k in st.cloud ensures Owned(cfg, k) && !k.kind.Foreign? {
      SpiffeOwns(cfg, k);
      OwnedNotForeign(cfg, k);
    }
    LeftByItself(cfg, st);
    LeftByIsLeftovers(cfg, st.cloud, dualstack);
    SweepExact(st.cloud, dualstack, dualstack, CLIENT_TLS);
  }

  /** A dualstack manager's IPv6 rule is left by a sweep without the flag. */
  lemma SweepCanLeaveIpv6(cfg: Config) returns (st: State)
    requires cfg.region.None? && cfg.manager in {Plain, AppNet, Secure, Spiffe} && cfg.dualstack
    ensures Reachable(cfg, st) && LeftBy(cfg, st.cloud)
    ensures Key(ForwardingRuleIpv6, Global) in Sweep(st.cloud, false)
  {
    var key := Key(ForwardingRuleIpv6, Global);
    st := Ipv6SetupReaches(cfg, map[]);
    forall k | k in st.cloud ensures Owned(cfg, k) && !k.kind.Foreign? { OwnedNotForeign(cfg, k); }
    LeftByItself(cfg, st);
    LeftByIsLeftovers(cfg, st.cloud, true);
    SparedIpv6(st.cloud, false, key);
    SparedStaysThroughout(st.cloud, true, key);
  }
}
