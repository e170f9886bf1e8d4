/** Main results on Traffic Director cleanup. */
module TdTheorems {
  import opened Wrappers
  import opened CloudGraph
  import opened TdResources
  import opened TdState
  import opened TdCleanup

  // ---------- Forced or not: when is nothing left? ----------

  /** A cleanup leaves none of the manager's resources alive exactly when every live one
      has its delete sent, and sent to the place where it is. */
  lemma CleanupEmptiesIff(cfg: Config, st: State, force: bool)
    requires Sound(cfg, st)
    ensures NothingLeft(cfg, Cleanup(cfg, st, force).cloud) <==> AllSent(cfg, st, force)
  {
    CleanupExact(cfg, st, force);
    var ks := SentKeys(cfg, st, force);
    var left := Cleanup(cfg, st, force).cloud;
    if AllSent(cfg, st, force) {
      AllSentIsIsolated(cfg, st, force);
      DeleteAllClears(st.cloud, ks);
      forall k | k in left ensures !Owned(cfg, k) {
        if Owned(cfg, k) { SentKeysAre(cfg, st, force, k); }
      }
    } else {
      var k :| k in Plan(cfg) && Created(cfg, k) in st.cloud && !WillBeSent(cfg, st, force, k);
      SentKeysAre(cfg, st, force, Created(cfg, k));
      StaysIff(st.cloud, ks, Created(cfg, k));
    }
  }

  /** When nothing is left, no delete on the way was refused: each resource was free by
      the time its turn came. */
  lemma NoDeleteOnTheWayRefused(cfg: Config, st: State, force: bool, i: nat)
    requires Sound(cfg, st) && AllSent(cfg, st, force)
    requires i < |SentKeys(cfg, st, force)|
    ensures !Referred(DeleteAll(st.cloud, SentKeys(cfg, st, force)[..i]), SentKeys(cfg, st, force)[i])
  {
    CleanupExact(cfg, st, force);
    AllSentIsIsolated(cfg, st, force);
    NoDeleteRefused(st.cloud, SentKeys(cfg, st, force), i);
  }

  lemma SentKeyIs(cfg: Config, st: State, force: bool, k: Key)
    requires k in SentKeys(cfg, st, force)
    ensures Hit(st, k.kind, force) && k.kind in Plan(cfg) && k == Deleted(cfg, k.kind)
  {
    var ks, issued := SentKeys(cfg, st, force), Issued(cfg, st, Plan(cfg), force);
    var i :| 0 <= i < |ks| && ks[i] == k;
    assert issued[i] in issued && ks[i] == Deleted(cfg, issued[i]);
    IssuedByCleanup(cfg, st, force, issued[i]);
  }

  lemma RuleIsSent(cfg: Config, st: State, force: bool)
    requires cfg.dualstack && Hit(st, ForwardingRuleIpv6, force)
    ensures Deleted(cfg, ForwardingRuleIpv6) in SentKeys(cfg, st, force)
  {
    Ipv6InPlan(cfg);
    IssuedByCleanup(cfg, st, force, ForwardingRuleIpv6);
    var issued := Issued(cfg, st, Plan(cfg), force);
    var i :| 0 <= i < |issued| && issued[i] == ForwardingRuleIpv6;
    assert SentKeys(cfg, st, force)[i] == Deleted(cfg, ForwardingRuleIpv6);
  }

  /** Nobody else's resources are changed, and one is deleted exactly when it is a global rule
      with the name of the IPv6 forwarding rule and the cleanup sends the delete of that. */
  lemma OthersStay(cfg: Config, st: State, force: bool, k: Key)
    requires Sound(cfg, st) && k in st.cloud && !Owned(cfg, k)
    ensures k !in Cleanup(cfg, st, force).cloud
            <==> k == Deleted(cfg, ForwardingRuleIpv6) && cfg.dualstack && Hit(st, ForwardingRuleIpv6, force)
    ensures k in Cleanup(cfg, st, force).cloud ==> Cleanup(cfg, st, force).cloud[k] == st.cloud[k]
  {
    CleanupExact(cfg, st, force);
    StaysIff(st.cloud, SentKeys(cfg, st, force), k);
    if k in SentKeys(cfg, st, force) {
      SentKeyIs(cfg, st, force, k);
      Ipv6InPlan(cfg);
    }
    if cfg.dualstack && Hit(st, ForwardingRuleIpv6, force) { RuleIsSent(cfg, st, force); }
  }

  /** The IPv6 forwarding rule lives where its delete does not look. */
  predicate MisplacedRule(cfg: Config, cloud: Cloud) {
    cfg.region.Some? && cfg.dualstack && Created(cfg, ForwardingRuleIpv6) in cloud
  }

  lemma Ipv6InPlan(cfg: Config)
    ensures ForwardingRuleIpv6 in Plan(cfg) <==> cfg.dualstack
    ensures cfg.dualstack ==> TargetProxyIpv6 in Plan(cfg)
  {
  }

  lemma BaseKindsInPlan(cfg: Config)
    ensures TargetHttpProxy in Plan(cfg) && TargetGrpcProxy in Plan(cfg)
    ensures UrlMap in Plan(cfg) && AltUrlMap in Plan(cfg) && BackendService in Plan(cfg)
  {
  }

  /** Forced cleanup of any manager class, from any state reached by any calls: nothing is
      left unless a regional IPv6 forwarding rule is alive. */
  lemma ForcedCleanupEmptiesIff(cfg: Config, st: State)
    requires Reachable(cfg, st)
    ensures NothingLeft(cfg, Cleanup(cfg, st, true).cloud) <==> !MisplacedRule(cfg, st.cloud)
  {
    ReachableIsSound(cfg, st);
    CleanupEmptiesIff(cfg, st, true);
    Ipv6InPlan(cfg);
  }

  lemma FreshIsReachable(cfg: Config, cloud0: Cloud) returns (st: State)
    requires Untouched(cfg, cloud0)
    ensures Reachable(cfg, st) && st == NewManager(cloud0)
  {
    st := NewManager(cloud0);
    assert ReachedBy(cfg, cloud0, [], st);
  }

  lemma ReachableStep(cfg: Config, st: State, op: Op)
    requires Reachable(cfg, st) && Good(cfg, op)
    ensures Reachable(cfg, Do(cfg, st, op))
  {
    var cloud0, ops :| ReachedBy(cfg, cloud0, ops, st);
    assert (ops + [op])[..|ops|] == ops;
    assert ReachedBy(cfg, cloud0, ops + [op], Do(cfg, st, op));
  }

  /** A create that succeeds adds its resource and sets its attribute. */
  lemma CreateSucceeds(cfg: Config, st: State, req: Request, k: Kind, refs: set<Key>) returns (st': State)
    requires Reachable(cfg, st) && CanCreate(cfg, st, req, k, refs)
    ensures Reachable(cfg, st') && st' == Do(cfg, st, Ask(req, Replied))
    ensures st'.cloud == st.cloud[Created(cfg, k) := refs]
    ensures st'.tracked == st.tracked[AttrOf(k) := Created(cfg, k)]
    ensures TracksAll(cfg, st) ==> TracksAll(cfg, st')
  {
    ReachableStep(cfg, st, Ask(req, Replied));
    st' := Do(cfg, st, Ask(req, Replied));
    if TracksAll(cfg, st) { AskTracksAll(cfg, st, req, Replied); }
  }

  lemma FreshTracksAll(cfg: Config)
    ensures TracksAll(cfg, NewManager(map[]))
  {
  }

  /** A create goes through to its API call, for a name that is free. */
  predicate CanCreate(cfg: Config, st: State, req: Request, k: Kind, refs: set<Key>) {
    && Good(cfg, Ask(req, Replied)) && !req.NewTargetProxy?
    && Prepare(cfg, st, req) == Some(Insert(k, refs))
    && k in Plan(cfg) && Created(cfg, k) !in st.cloud
  }

  /** Requests without content from the caller are all good. */
  predicate NoContent(req: Request) {
    !req.NewUrlMapWithContent? && !req.NewAltUrlMap? && !req.NewGrpcRouteWithContent? && !req.NewHttpRouteWithContent?
    && !req.PatchUrlMap? && !req.PatchBackends?
  }

  lemma NoContentIsGood(cfg: Config, req: Request, reply: Reply)
    requires NoContent(req)
    ensures Good(cfg, Ask(req, reply))
  {
  }

  lemma CanCreateBackendService(cfg: Config, st: State, protocol: Protocol)
    requires HealthCheck !in st.tracked && Created(cfg, BackendService) !in st.cloud
    ensures CanCreate(cfg, st, NewBackendService(protocol, false), BackendService, {})
  {
    BaseKindsInPlan(cfg);
    NoContentIsGood(cfg, NewBackendService(protocol, false), Replied);
    assert Refs(st, {HealthCheck}) == {};
  }

  lemma CanCreateUrlMap(cfg: Config, st: State)
    requires BackendService in st.tracked && Created(cfg, UrlMap) !in st.cloud
    ensures CanCreate(cfg, st, NewUrlMap, UrlMap, {st.tracked[BackendService]})
  {
    BaseKindsInPlan(cfg);
    NoContentIsGood(cfg, NewUrlMap, Replied);
    assert Refs(st, {BackendService}) == {st.tracked[BackendService]};
  }

  lemma CanCreateAltUrlMap(cfg: Config, st: State)
    requires Created(cfg, AltUrlMap) !in st.cloud
    ensures CanCreate(cfg, st, NewAltUrlMap(Some(Created(cfg, BackendService))), AltUrlMap, {Created(cfg, BackendService)})
  {
    BaseKindsInPlan(cfg);
  }

  lemma UrlMapSetupReaches(cfg: Config, cloud0: Cloud) returns (st: State)
    requires Untouched(cfg, cloud0)
    ensures Reachable(cfg, st) && UrlMap in st.tracked && Created(cfg, UrlMap) in st.cloud
    ensures forall k :: k in cloud0 ==> k in st.cloud
    ensures forall k :: k in st.cloud ==> k in cloud0 || (Owned(cfg, k) && (k.kind.BackendService? || k.kind.UrlMap?))
    ensures TracksAll(cfg, NewManager(cloud0)) ==> TracksAll(cfg, st)
  {
    BaseKindsInPlan(cfg);
    st := FreshIsReachable(cfg, cloud0);
    CanCreateBackendService(cfg, st, Http2);
    st := CreateSucceeds(cfg, st, NewBackendService(Http2, false), BackendService, {});
    CanCreateUrlMap(cfg, st);
    st := CreateSucceeds(cfg, st, NewUrlMap, UrlMap, {st.tracked[BackendService]});
  }

  lemma CanCreateProxyIpv6(cfg: Config, st: State)
    requires cfg.dualstack && UrlMap in st.tracked && Created(cfg, TargetProxyIpv6) !in st.cloud
    ensures CanCreate(cfg, st, NewTargetProxyIpv6, TargetProxyIpv6, {st.tracked[UrlMap]})
  {
    Ipv6InPlan(cfg);
    NoContentIsGood(cfg, NewTargetProxyIpv6, Replied);
    assert Refs(st, {UrlMap}) == {st.tracked[UrlMap]};
  }

  lemma CanCreateRuleIpv6(cfg: Config, st: State)
    requires cfg.dualstack && TargetProxyIpv6 in st.tracked && Created(cfg, ForwardingRuleIpv6) !in st.cloud
    ensures CanCreate(cfg, st, NewForwardingRuleIpv6, ForwardingRuleIpv6, {st.tracked[TargetProxyIpv6]})
  {
    Ipv6InPlan(cfg);
    NoContentIsGood(cfg, NewForwardingRuleIpv6, Replied);
    assert Refs(st, {TargetProxyIpv6}) == {st.tracked[TargetProxyIpv6]};
  }

  /** The IPv6 half of the routing setup reaches a state with the IPv6 rule alive. */
  lemma Ipv6SetupReaches(cfg: Config, cloud0: Cloud) returns (st: State)
    requires cfg.dualstack && Untouched(cfg, cloud0)
    ensures Reachable(cfg, st) && Created(cfg, ForwardingRuleIpv6) in st.cloud && ForwardingRuleIpv6 in st.tracked
    ensures forall k :: k in cloud0 ==> k in st.cloud
    ensures forall k :: k in st.cloud ==> k in cloud0 || Owned(cfg, k)
  {
    Ipv6InPlan(cfg);
    st := UrlMapSetupReaches(cfg, cloud0);
    assert Owned(cfg, Created(cfg, TargetProxyIpv6)) && Owned(cfg, Created(cfg, ForwardingRuleIpv6));
    CanCreateProxyIpv6(cfg, st);
    st := CreateSucceeds(cfg, st, NewTargetProxyIpv6, TargetProxyIpv6, {st.tracked[UrlMap]});
    CanCreateRuleIpv6(cfg, st);
    st := CreateSucceeds(cfg, st, NewForwardingRuleIpv6, ForwardingRuleIpv6, {st.tracked[TargetProxyIpv6]});
  }

  /** A regional dualstack manager does delete a stranger's rule: some state it reaches, in a
      cloud where the rule was all along, and either kind of cleanup. */
  lemma StrangerCanBeDeleted(cfg: Config, force: bool) returns (st: State)
    requires cfg.region.Some? && cfg.dualstack
    ensures Reachable(cfg, st)
    ensures var k := Key(ForwardingRuleIpv6, Global);
            k in st.cloud && !Owned(cfg, k) && k !in Cleanup(cfg, st, force).cloud
  {
    var k := Key(ForwardingRuleIpv6, Global);
    st := Ipv6SetupReaches(cfg, map[k := {}]);
    ReachableIsSound(cfg, st);
    OthersStay(cfg, st, force, k);
  }

  lemma Ipv6CanLeak(cfg: Config)
    requires cfg.region.Some? && cfg.dualstack
    ensures exists st :: Reachable(cfg, st) && !NothingLeft(cfg, Cleanup(cfg, st, true).cloud)
  {
    var st := Ipv6SetupReaches(cfg, map[]);
    ForcedCleanupEmptiesIff(cfg, st);
  }

  /** The guarantee holds of a configuration, over all its reachable states, exactly when it
      is not both regional and dualstack. */
  lemma ForcedCleanupAlwaysEmptiesIff(cfg: Config)
    ensures (forall st :: Reachable(cfg, st) ==> NothingLeft(cfg, Cleanup(cfg, st, true).cloud))
            <==> !(cfg.region.Some? && cfg.dualstack)
  {
    if cfg.region.Some? && cfg.dualstack {
      Ipv6CanLeak(cfg);
    } else {
      forall st | Reachable(cfg, st) ensures NothingLeft(cfg, Cleanup(cfg, st, true).cloud) {
        ForcedCleanupEmptiesIff(cfg, st);
      }
    }
  }

  lemma NoMisplacedRule(cfg: Config, cloud: Cloud)
    requires cfg.manager in {Secure, Spiffe, CloudRun}
    ensures !MisplacedRule(cfg, cloud)
  {
  }

  /** So it holds of the Secure, Spiffe and Cloud Run managers, which have no region. */
  lemma ForcedCleanupOfGlobalClassesEmpties(cfg: Config, st: State)
    requires cfg.manager in {Secure, Spiffe, CloudRun} && Reachable(cfg, st)
    ensures NothingLeft(cfg, Cleanup(cfg, st, true).cloud)
  {
    NoMisplacedRule(cfg, st.cloud);
    ForcedCleanupEmptiesIff(cfg, st);
  }

  // ---------- A second cleanup ----------

  lemma {:induction false} RunDeletesKeepsSound(cfg: Config, st: State, kinds: seq<Kind>, force: bool)
    requires Sound(cfg, st) && forall k :: k in kinds ==> k in Plan(cfg)
    ensures Sound(cfg, RunDeletes(cfg, st, kinds, force))
    ensures RunDeletes(cfg, st, kinds, force).tracked.Keys <= st.tracked.Keys
  {
    if kinds != [] {
      RunDeletesKeepsSound(cfg, st, kinds[..|kinds| - 1], force);
      DoKeepsSound(cfg, RunDeletes(cfg, st, kinds[..|kinds| - 1], force), Remove(kinds[|kinds| - 1], force));
    }
  }

  lemma ForgottenAtOnce(cfg: Config, st: State, k: Kind, force: bool)
    requires Sound(cfg, st) && k == TargetGrpcProxy && k in Plan(cfg)
    ensures Sound(cfg, DoDelete(cfg, st, k, force)) && k !in DoDelete(cfg, st, k, force).tracked
  {
    DoKeepsSound(cfg, st, Remove(k, force));
  }

  lemma ForgottenAfter(cfg: Config, st: State, a: seq<Kind>, k: Kind, b: seq<Kind>, force: bool)
    requires Sound(cfg, st) && k == TargetGrpcProxy && k in Plan(cfg)
    requires forall l :: l in a || l in b ==> l in Plan(cfg)
    ensures k !in RunDeletes(cfg, st, a + [k] + b, force).tracked
  {
    RunDeletesAppend(cfg, st, a, [k], force);
    RunDeletesAppend(cfg, st, a + [k], b, force);
    RunDeletesKeepsSound(cfg, st, a, force);
    var mid := RunDeletes(cfg, st, a, force);
    RunDeletesOne(cfg, mid, k, force);
    ForgottenAtOnce(cfg, mid, k, force);
    RunDeletesKeepsSound(cfg, DoDelete(cfg, mid, k, force), b, force);
  }

  lemma SplitAt(kinds: seq<Kind>, k: Kind) returns (a: seq<Kind>, b: seq<Kind>)
    requires k in kinds
    ensures kinds == a + [k] + b && forall l :: l in a || l in b ==> l in kinds
  {
    var n :| 0 <= n < |kinds| && kinds[n] == k;
    a, b := kinds[..n], kinds[n + 1..];
  }

  lemma ProxyForgotten(cfg: Config, st: State, force: bool)
    requires Sound(cfg, st)
    ensures TargetGrpcProxy !in Cleanup(cfg, st, force).tracked
  {
    BaseKindsInPlan(cfg);
    var a, b := SplitAt(Plan(cfg), TargetGrpcProxy);
    ForgottenAfter(cfg, st, a, TargetGrpcProxy, b, force);
  }

  /** Cleaning up twice changes nothing the second time, even after refused deletes and
      although the alternative URL map stays tracked. */
  lemma SecondCleanupChangesNothing(cfg: Config, st: State, force: bool)
    requires Reachable(cfg, st)
    ensures var once := Cleanup(cfg, st, force); Cleanup(cfg, once, force).cloud == once.cloud
  {
    ReachableIsSound(cfg, st);
    var once := Cleanup(cfg, st, force);
    RunDeletesKeepsSound(cfg, st, Plan(cfg), force);
    CleanupExact(cfg, st, force);
    CleanupExact(cfg, once, force);
    ProxyForgotten(cfg, st, force);
    var first, second := Issued(cfg, st, Plan(cfg), force), Issued(cfg, once, Plan(cfg), force);
    forall key | key in SentKeys(cfg, once, force) ensures key in SentKeys(cfg, st, force) {
      var i :| 0 <= i < |second| && Deleted(cfg, second[i]) == key;
      IssuedByCleanup(cfg, once, force, second[i]);
      IssuedByCleanup(cfg, st, force, second[i]);
      var j :| 0 <= j < |first| && first[j] == second[i];
      assert SentKeys(cfg, st, force)[j] == key;
    }
    SecondPassIsNoop(st.cloud, SentKeys(cfg, st, force), SentKeys(cfg, once, force));
  }

  // ---------- Non-forced cleanup after creates that told the truth ----------

  /** Everything alive is tracked, the target proxy under the flag of its kind. */
  ghost predicate TracksAll(cfg: Config, st: State) {
    && (forall k :: k in Plan(cfg) && Created(cfg, k) in st.cloud
          ==> AttrOf(k) in st.tracked && st.tracked[AttrOf(k)] == Created(cfg, k))
    && (TargetHttpProxy in Plan(cfg) && Created(cfg, TargetHttpProxy) in st.cloud ==> st.protocol == Http2)
    && (TargetGrpcProxy in Plan(cfg) && Created(cfg, TargetGrpcProxy) in st.cloud ==> st.protocol == Grpc)
    && (st.protocol != Unset ==> Created(cfg, BackendService) in st.cloud)
    && (TargetGrpcProxy in st.tracked ==> st.proxyIsHttp == (st.protocol == Http2)
                                          && st.tracked[TargetGrpcProxy] in st.cloud)
    && Sound(cfg, st)
  }

  predicate Truthful(op: Op) {
    op.Ask? && !op.reply.LostReply?
  }

  lemma MakeCallTracksAll(cfg: Config, st: State, call: ApiCall, reply: Reply, protocol: Protocol)
    requires TracksAll(cfg, st) && !reply.LostReply?
    requires Sound(cfg, MakeCall(cfg, st, call, reply, protocol))
    requires call.kind != BackendService || call.Update? ==> protocol == st.protocol
    requires call.Insert? && call.kind == TargetHttpProxy ==> protocol == Http2 && st.proxyIsHttp
    requires call.Insert? && call.kind == TargetGrpcProxy ==> protocol == Grpc && !st.proxyIsHttp
    ensures TracksAll(cfg, MakeCall(cfg, st, call, reply, protocol))
  {
    PlanAscending(cfg);
    var st' := MakeCall(cfg, st, call, reply, protocol);
    if st' != st {
      assert call.kind in Plan(cfg);
      forall k | k in Plan(cfg) && Created(cfg, k) in st'.cloud
        ensures AttrOf(k) in st'.tracked && st'.tracked[AttrOf(k)] == Created(cfg, k)
      {
        if AttrOf(k) == AttrOf(call.kind) && k != call.kind {
          RankInjective(k, call.kind);
        }
      }
    }
  }

  /** Which calls can insert a backend service or a target proxy. */
  lemma PreparedKinds(cfg: Config, st: State, req: Request)
    ensures var call := Prepare(cfg, st, req);
            call.Some? && call.value.Insert? ==>
              && (call.value.kind == BackendService <==> req.NewBackendService?)
              && (call.value.kind == TargetHttpProxy ==> req.NewTargetProxy? && st.protocol == Http2)
              && (call.value.kind == TargetGrpcProxy ==> req.NewTargetProxy? && st.protocol == Grpc)
    ensures var call := Prepare(cfg, st, req);
            call.Some? && call.value.Update? ==> !req.NewBackendService?
  {
  }

  lemma AskTracksAll(cfg: Config, st: State, req: Request, reply: Reply)
    requires TracksAll(cfg, st) && Good(cfg, Ask(req, reply)) && !reply.LostReply?
    ensures TracksAll(cfg, DoRequest(cfg, st, req, reply))
  {
    DoKeepsSound(cfg, st, Ask(req, reply));
    PreparedKinds(cfg, st, req);
    var ready := BeforeCall(st, req);
    assert TracksAll(cfg, ready);
    var call := Prepare(cfg, st, req);
    if call.Some? {
      MakeCallTracksAll(cfg, ready, call.value, reply, if req.NewBackendService? then req.protocol else st.protocol);
    }
  }

  lemma {:induction false} CreatesTrackAll(cfg: Config, cloud0: Cloud, ops: seq<Op>)
    requires Untouched(cfg, cloud0) && forall op :: op in ops ==> Good(cfg, op) && Truthful(op)
    ensures TracksAll(cfg, Execute(cfg, NewManager(cloud0), ops))
  {
    if ops != [] {
      var front, op := ops[..|ops| - 1], ops[|ops| - 1];
      CreatesTrackAll(cfg, cloud0, front);
      assert op in ops;
      AskTracksAll(cfg, Execute(cfg, NewManager(cloud0), front), op.req, op.reply);
    }
  }

  lemma TracksAllIsHit(cfg: Config, st: State, k: Kind)
    requires TracksAll(cfg, st) && k in Plan(cfg) && Created(cfg, k) in st.cloud
    ensures Hit(st, k, false)
  {
  }

  /** After any creates and patches that each succeeded or failed cleanly, an ordinary
      cleanup leaves nothing, unless a regional IPv6 forwarding rule is alive. */
  lemma CleanupAfterCreatesEmptiesIff(cfg: Config, cloud0: Cloud, ops: seq<Op>)
    requires Untouched(cfg, cloud0) && forall op :: op in ops ==> Good(cfg, op) && Truthful(op)
    ensures var st := Execute(cfg, NewManager(cloud0), ops);
            NothingLeft(cfg, Cleanup(cfg, st, false).cloud) <==> !MisplacedRule(cfg, st.cloud)
  {
    CreatesTrackAll(cfg, cloud0, ops);
    TracksAllEmptiesIff(cfg, Execute(cfg, NewManager(cloud0), ops));
  }

  lemma TracksAllEmptiesIff(cfg: Config, st: State)
    requires TracksAll(cfg, st)
    ensures NothingLeft(cfg, Cleanup(cfg, st, false).cloud) <==> !MisplacedRule(cfg, st.cloud)
  {
    CleanupEmptiesIff(cfg, st, false);
    Ipv6InPlan(cfg);
    forall k | k in Plan(cfg) && Created(cfg, k) in st.cloud ensures Hit(st, k, false) {
      TracksAllIsHit(cfg, st, k);
    }
  }

  /** The live target proxy is deleted by the call for its own kind and by no other. */
  lemma ProxyDeletedByItsKind(cfg: Config, cloud0: Cloud, ops: seq<Op>, k: Kind)
    requires Untouched(cfg, cloud0) && forall op :: op in ops ==> Good(cfg, op) && Truthful(op)
    requires k == TargetHttpProxy || k == TargetGrpcProxy
    ensures var st := Execute(cfg, NewManager(cloud0), ops);
            k in Issued(cfg, st, Plan(cfg), false) <==> Created(cfg, k) in st.cloud
  {
    CreatesTrackAll(cfg, cloud0, ops);
    var st := Execute(cfg, NewManager(cloud0), ops);
    IssuedByCleanup(cfg, st, false, k);
    BaseKindsInPlan(cfg);
  }

  // ---------- The attribute the alternative URL map's delete clears ----------

  lemma ForgottenUrlMap(cfg: Config, st: State)
    requires TracksAll(cfg, st) && AltUrlMap in st.tracked && Created(cfg, UrlMap) in st.cloud
    ensures !AllSent(cfg, DoDelete(cfg, st, AltUrlMap, false), false)
  {
    BaseKindsInPlan(cfg);
    var st' := DoDelete(cfg, st, AltUrlMap, false);
    assert Created(cfg, UrlMap) in st'.cloud && !Hit(st', UrlMap, false);
  }

  lemma NothingForgotten(cfg: Config, st: State, k: Kind)
    requires TracksAll(cfg, st) && (AltUrlMap !in st.tracked || Created(cfg, UrlMap) !in st.cloud)
    requires k in Plan(cfg) && Created(cfg, k) in DoDelete(cfg, st, AltUrlMap, false).cloud
    ensures Created(cfg, k) in st.cloud && Hit(DoDelete(cfg, st, AltUrlMap, false), k, false)
  {
    TracksAllIsHit(cfg, st, k);
  }

  /** Called on its own, `delete_alternative_url_map` makes the manager forget the main URL
      map: an ordinary cleanup after it leaves nothing exactly when the delete was skipped
      or there was no main URL map. */
  lemma AltUrlMapDeleteForgetsUrlMap(cfg: Config, st: State)
    requires TracksAll(cfg, st) && !MisplacedRule(cfg, st.cloud)
    ensures var st' := DoDelete(cfg, st, AltUrlMap, false);
            NothingLeft(cfg, Cleanup(cfg, st', false).cloud)
            <==> AltUrlMap !in st.tracked || Created(cfg, UrlMap) !in st.cloud
  {
    var st' := DoDelete(cfg, st, AltUrlMap, false);
    BaseKindsInPlan(cfg);
    DoKeepsSound(cfg, st, Remove(AltUrlMap, false));
    CleanupEmptiesIff(cfg, st', false);
    Ipv6InPlan(cfg);
    if AltUrlMap in st.tracked && Created(cfg, UrlMap) in st.cloud {
      ForgottenUrlMap(cfg, st);
    } else {
      forall k | k in Plan(cfg) && Created(cfg, k) in st'.cloud ensures WillBeSent(cfg, st', false, k) {
        NothingForgotten(cfg, st, k);
      }
    }
  }

  lemma AltUrlMapSetupReaches(cfg: Config) returns (st: State)
    ensures Reachable(cfg, st) && TracksAll(cfg, st) && AltUrlMap in st.tracked
    ensures Created(cfg, UrlMap) in st.cloud && Created(cfg, ForwardingRuleIpv6) !in st.cloud
  {
    FreshTracksAll(cfg);
    st := UrlMapSetupReaches(cfg, map[]);
    CanCreateAltUrlMap(cfg, st);
    st := CreateSucceeds(cfg, st, NewAltUrlMap(Some(Created(cfg, BackendService))), AltUrlMap, {Created(cfg, BackendService)});
  }

  /** It does forget it: such a state, reached by creates that all succeed. */
  lemma AltUrlMapDeleteCanLeak(cfg: Config) returns (st: State)
    ensures Reachable(cfg, st) && AltUrlMap in st.tracked && Created(cfg, UrlMap) in st.cloud
    ensures !NothingLeft(cfg, Cleanup(cfg, DoDelete(cfg, st, AltUrlMap, false), false).cloud)
    ensures NothingLeft(cfg, Cleanup(cfg, st, false).cloud)
  {
    st := AltUrlMapSetupReaches(cfg);
    AltUrlMapDeleteForgetsUrlMap(cfg, st);
    TracksAllEmptiesIff(cfg, st);
  }
}
