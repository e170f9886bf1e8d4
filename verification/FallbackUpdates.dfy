/** Updates made of a listener, its cluster and the cluster's endpoints. */
module FallbackUpdates {
  import opened Wrappers
  import opened XdsResources
  import opened ControlPlane

  datatype Update = Update(listener: string, cluster: string, host: string, port: int)

  function RequestOf(u: Update): Request {
    BuildListenerAndCluster(u.listener, u.cluster, u.host, u.port)
  }

  function RequestsOf(us: seq<Update>): seq<Request> {
    seq(|us|, i requires 0 <= i < |us| => RequestOf(us[i]))
  }

  function ListenerKey(name: string): Key { Key(ListenerType, name) }

  function ClusterKey(name: string): Key { Key(ClusterType, name) }

  function EndpointKey(name: string): Key { Key(EndpointType, name) }

  /** `i` is the last update of its listener. */
  predicate LastOfListener(us: seq<Update>, i: nat)
    requires i < |us|
  {
    forall j :: i < j < |us| ==> us[j].listener != us[i].listener
  }

  predicate LastOfCluster(us: seq<Update>, i: nat)
    requires i < |us|
  {
    forall j :: i < j < |us| ==> us[j].cluster != us[i].cluster
  }

  /** The key belongs to one of the resources of update `u`. */
  predicate KeyOf(k: Key, u: Update) {
    k == ListenerKey(u.listener) || k == ClusterKey(u.cluster) || k == EndpointKey(ServiceName(u.cluster))
  }

  predicate Holds(store: Store, k: Key, m: Message) {
    k in store && store[k] == m
  }

  ghost predicate Named(us: seq<Update>, k: Key) {
    exists i :: 0 <= i < |us| && KeyOf(k, us[i])
  }

  ghost predicate NothingElse(store: Store, us: seq<Update>) {
    forall k {:trigger Named(us, k)} :: k in store ==> Named(us, k)
  }

  predicate ListenerIs(store: Store, u: Update) {
    Holds(store, ListenerKey(u.listener), Listener(u.listener, Some(u.cluster), {}))
  }

  predicate ClusterIs(store: Store, u: Update) {
    Holds(store, ClusterKey(u.cluster), Cluster(u.cluster, Some(ServiceName(u.cluster))))
  }

  predicate EndpointIs(store: Store, u: Update) {
    Holds(store, EndpointKey(ServiceName(u.cluster)), ClusterLoadAssignment(ServiceName(u.cluster), u.host, u.port))
  }

  /** The specification: the latest listener of each name, every cluster ever named, and for
      each its own latest endpoint assignment, and nothing else. */
  ghost predicate Reflects(store: Store, us: seq<Update>) {
    && NothingElse(store, us)
    && (forall i :: 0 <= i < |us| && LastOfListener(us, i) ==> ListenerIs(store, us[i]))
    && (forall i :: 0 <= i < |us| ==> ClusterIs(store, us[i]))
    && (forall i :: 0 <= i < |us| && LastOfCluster(us, i) ==> EndpointIs(store, us[i]))
  }

  /** The effect of one update on the store. */
  function PutUpdate(store: Store, u: Update): Store {
    store[ListenerKey(u.listener) := BuildListener(u.listener, u.cluster)]
         [ClusterKey(u.cluster) := BuildCluster(u.cluster, ServiceName(u.cluster))]
         [EndpointKey(ServiceName(u.cluster)) := BuildEndpoint(ServiceName(u.cluster), u.host, u.port)]
  }

  lemma PutAllIsPutUpdate(store: Store, u: Update)
    ensures PutAll(store, RequestOf(u)) == PutUpdate(store, u)
  {
    var a := BuildResourceToSet(BuildListener(u.listener, u.cluster));
    var b := BuildResourceToSet(BuildCluster(u.cluster, ServiceName(u.cluster)));
    var c := BuildResourceToSet(BuildEndpoint(ServiceName(u.cluster), u.host, u.port));
    assert RequestOf(u) == [a, b, c];
    assert [a, b, c][..2] == [a, b] && [a, b][..1] == [a] && [a][..0] == [];
    assert PutAll(store, [a]) == Put(store, a);
    assert PutAll(store, [a, b]) == Put(Put(store, a), b);
  }

  lemma LastBefore(us: seq<Update>, u: Update, i: nat)
    requires i < |us|
    ensures LastOfListener(us + [u], i) ==> LastOfListener(us, i) && us[i].listener != u.listener
    ensures LastOfCluster(us + [u], i) ==> LastOfCluster(us, i) && us[i].cluster != u.cluster
  {
    var all := us + [u];
    assert all[|us|] == u && all[i] == us[i];
    assert forall j :: i < j < |us| ==> all[j] == us[j];
  }

  /** What an update does to the resources of another one. */
  lemma PutUpdateOther(store: Store, u: Update, v: Update)
    ensures ListenerIs(store, v) && v.listener != u.listener ==> ListenerIs(PutUpdate(store, u), v)
    ensures ClusterIs(store, v) ==> ClusterIs(PutUpdate(store, u), v)
    ensures EndpointIs(store, v) && v.cluster != u.cluster ==> EndpointIs(PutUpdate(store, u), v)
  {
    ServiceNamesDiffer(v.cluster, u.cluster);
  }

  lemma PutUpdateOwn(store: Store, u: Update)
    ensures ListenerIs(PutUpdate(store, u), u) && ClusterIs(PutUpdate(store, u), u) && EndpointIs(PutUpdate(store, u), u)
    ensures forall k :: k in PutUpdate(store, u) ==> k in store || KeyOf(k, u)
  {
  }

  lemma PutUpdateNothingElse(store: Store, us: seq<Update>, u: Update)
    requires NothingElse(store, us)
    ensures NothingElse(PutUpdate(store, u), us + [u])
  {
    var all, after := us + [u], PutUpdate(store, u);
    PutUpdateOwn(store, u);
    forall k | k in after ensures Named(all, k) {
      if k in store {
        assert Named(us, k);
        var i :| 0 <= i < |us| && KeyOf(k, us[i]);
        assert all[i] == us[i];
      } else {
        assert all[|us|] == u;
      }
    }
  }

  lemma PutUpdateReflects(store: Store, us: seq<Update>, u: Update)
    requires Reflects(store, us)
    ensures Reflects(PutUpdate(store, u), us + [u])
  {
    var all, after := us + [u], PutUpdate(store, u);
    PutUpdateNothingElse(store, us, u);
    PutUpdateOwn(store, u);
    forall i | 0 <= i < |all|
      ensures LastOfListener(all, i) ==> ListenerIs(after, all[i])
      ensures ClusterIs(after, all[i])
      ensures LastOfCluster(all, i) ==> EndpointIs(after, all[i])
    {
      if i < |us| {
        LastBefore(us, u, i);
        assert all[i] == us[i];
        PutUpdateOther(store, u, us[i]);
      }
    }
  }

  lemma EdsReferencesPresent(store: Store, us: seq<Update>, s: string)
    requires Reflects(store, us)
    ensures s in EdsReferences(store) <==> s in EndpointNames(store)
  {
    if s in EdsReferences(store) {
      var k :| k in store && s in EdsReference(store[k]);
      var i := StoredIs(store, us, k);
      var l := LastClusterIndex(us, i);
      var u := us[l];
      assert EndpointIs(store, u) && u.cluster == us[i].cluster;
      assert store[EndpointKey(s)].clusterName == s;
    }
    if s in EndpointNames(store) {
      var k :| k in store && store[k].ClusterLoadAssignment? && store[k].clusterName == s;
      var i := StoredIs(store, us, k);
      assert ClusterIs(store, us[i]);
      assert s in EdsReference(store[ClusterKey(us[i].cluster)]);
    }
  }

  /** A store that reflects updates is consistent: the EDS names referred to and those
      present are both the service names of the clusters. */
  lemma ReflectsIsAccepted(store: Store, us: seq<Update>)
    requires Reflects(store, us)
    ensures Accepts(store)
  {
    forall k | k in store
      ensures !k.resourceType.UnknownType? && RdsReference(store[k]) == {} && !store[k].RouteConfiguration?
    {
      var i := StoredIs(store, us, k);
    }
    forall s ensures s in EdsReferences(store) <==> s in EndpointNames(store) {
      EdsReferencesPresent(store, us, s);
    }
    assert RdsReferences(store) == {} == RouteNames(store);
  }

  lemma {:induction false} LastListenerIndex(us: seq<Update>, i: nat) returns (l: nat)
    requires i < |us|
    ensures i <= l < |us| && LastOfListener(us, l) && us[l].listener == us[i].listener
    decreases |us| - i
  {
    if LastOfListener(us, i) { l := i; }
    else {
      var j :| i < j < |us| && us[j].listener == us[i].listener;
      l := LastListenerIndex(us, j);
    }
  }

  lemma {:induction false} LastClusterIndex(us: seq<Update>, i: nat) returns (l: nat)
    requires i < |us|
    ensures i <= l < |us| && LastOfCluster(us, l) && us[l].cluster == us[i].cluster
    decreases |us| - i
  {
    if LastOfCluster(us, i) { l := i; }
    else {
      var j :| i < j < |us| && us[j].cluster == us[i].cluster;
      l := LastClusterIndex(us, j);
    }
  }

  lemma ServiceNameNotEmpty(c: string)
    ensures ServiceName(c) != ""
  {
  }

  /** What a key of the store holds, and an update that named it. */
  lemma StoredIs(store: Store, us: seq<Update>, k: Key) returns (i: nat)
    requires Reflects(store, us) && k in store
    ensures i < |us| && KeyOf(k, us[i])
    ensures k.resourceType.ListenerType? ==> store[k].Listener? && store[k].routeConfigs == {}
    ensures k.resourceType.ClusterType? ==> store[k].Cluster? && EdsReference(store[k]) == {ServiceName(us[i].cluster)}
    ensures k.resourceType.EndpointType? ==>
              store[k].ClusterLoadAssignment? && store[k].clusterName == ServiceName(us[i].cluster)
  {
    assert Named(us, k);
    i :| 0 <= i < |us| && KeyOf(k, us[i]);
    if k.resourceType.ListenerType? {
      i := LastListenerIndex(us, i);
      assert ListenerIs(store, us[i]);
    } else {
      i := LastClusterIndex(us, i);
      ServiceNameNotEmpty(us[i].cluster);
      assert ClusterIs(store, us[i]) && EndpointIs(store, us[i]);
    }
  }

  lemma UpdateStep(before: State, us: seq<Update>, u: Update)
    requires Reflects(before.resources, us)
    ensures var after := Serve(before, RequestOf(u));
            && Reflects(after.resources, us + [u]) && Accepts(after.resources)
            && after.cache == Some(Snapshot(after.version, after.resources))
  {
    PutAllIsPutUpdate(before.resources, u);
    PutUpdateReflects(before.resources, us, u);
    ReflectsIsAccepted(PutUpdate(before.resources, u), us + [u]);
  }

  lemma ServeAllLast(st: State, reqs: seq<Request>, r: Request)
    ensures ServeAll(st, reqs + [r]) == Serve(ServeAll(st, reqs), r)
  {
    assert (reqs + [r])[..|reqs|] == reqs;
  }

  lemma RequestsOfLast(us: seq<Update>, u: Update)
    ensures RequestsOf(us + [u]) == RequestsOf(us) + [RequestOf(u)]
  {
  }

  /** Starting empty, no such update is ever refused, and after any sequence of them the
      published resources are exactly the latest ones. */
  lemma {:induction false} UpdatesNeverRefused(us: seq<Update>)
    ensures var st := ServeAll(Started(), RequestsOf(us));
            && Reflects(st.resources, us) && Accepts(st.resources)
            && st.cache == Some(Snapshot(st.version, st.resources))
  {
    if us == [] {
      EmptyAccepted();
      assert RequestsOf(us) == [];
    } else {
      var front, u := us[..|us| - 1], us[|us| - 1];
      assert us == front + [u];
      UpdatesNeverRefused(front);
      RequestsOfLast(front, u);
      ServeAllLast(Started(), RequestsOf(front), RequestOf(u));
      UpdateStep(ServeAll(Started(), RequestsOf(front)), front, u);
    }
  }

  // ---------- What a client finds ----------

  /** What is published, on the fields of the messages: the listener routes to the cluster of
      its last update and to nothing else, and that cluster's assignment has the host and port
      of the last update of the cluster. */
  lemma PublishedUpdates(us: seq<Update>, i: nat)
    requires i < |us|
    ensures var cache, u := ServeAll(Started(), RequestsOf(us)).cache, us[i];
            && cache.Some?
            && var store, service := cache.value.resources, u.cluster + "_eds_service";
               && (LastOfListener(us, i) ==>
                     Holds(store, Key(ListenerType, u.listener), Listener(u.listener, Some(u.cluster), {})))
               && Holds(store, Key(ClusterType, u.cluster), Cluster(u.cluster, Some(service)))
               && (LastOfCluster(us, i) ==>
                     Holds(store, Key(EndpointType, service), ClusterLoadAssignment(service, u.host, u.port)))
    ensures forall k :: k in ServeAll(Started(), RequestsOf(us)).cache.value.resources ==>
              exists j :: 0 <= j < |us| && k in {Key(ListenerType, us[j].listener), Key(ClusterType, us[j].cluster),
                                                Key(EndpointType, us[j].cluster + "_eds_service")}
  {
    UpdatesNeverRefused(us);
    var store := ServeAll(Started(), RequestsOf(us)).cache.value.resources;
    forall k | k in store
      ensures exists j :: 0 <= j < |us| && k in {Key(ListenerType, us[j].listener), Key(ClusterType, us[j].cluster),
                                                Key(EndpointType, us[j].cluster + "_eds_service")}
    {
      assert Named(us, k);
      var j :| 0 <= j < |us| && KeyOf(k, us[j]);
    }
  }

  /** A client of the snapshot: from the listener to its cluster, from the cluster to its load
      assignment, and there to the address. */
  function Resolve(store: Store, listener: string): Option<(string, int)> {
    var l := Key(ListenerType, listener);
    if l !in store || !store[l].Listener? || store[l].cluster.None? then None else
    var c := Key(ClusterType, store[l].cluster.value);
    if c !in store || !store[c].Cluster? || store[c].edsService.None? then None else
    var e := Key(EndpointType, store[c].edsService.value);
    if e !in store || !store[e].ClusterLoadAssignment? then None else Some((store[e].host, store[e].port))
  }

  /** Whatever was updated before, in whatever order, a client is led to the address last given
      for the cluster that was last given for its listener; other names resolve to nothing. */
  lemma ClientsAreLedToTheLatest(us: seq<Update>, i: nat, j: nat)
    requires i < |us| && LastOfListener(us, i)
    requires j < |us| && LastOfCluster(us, j) && us[j].cluster == us[i].cluster
    ensures var cache := ServeAll(Started(), RequestsOf(us)).cache;
            && cache.Some?
            && Resolve(cache.value.resources, us[i].listener) == Some((us[j].host, us[j].port))
            && forall name :: (forall k :: 0 <= k < |us| ==> us[k].listener != name) ==> Resolve(cache.value.resources, name) == None
  {
    PublishedUpdates(us, i);
    PublishedUpdates(us, j);
    var store := ServeAll(Started(), RequestsOf(us)).cache.value.resources;
    forall name | forall k :: 0 <= k < |us| ==> us[k].listener != name ensures Key(ListenerType, name) !in store {
      assert forall k :: 0 <= k < |us| ==>
               Key(ListenerType, name) !in {Key(ListenerType, us[k].listener), Key(ClusterType, us[k].cluster),
                                            Key(EndpointType, us[k].cluster + "_eds_service")};
    }
  }

  // ---------- A refused update ----------

  function ListenerOnly(name: string, route: string): Store {
    map[Key(ListenerType, name) := Listener(name, None, {route})]
  }

  lemma PutOne(store: Store, m: Message)
    ensures PutAll(store, BuildSetResourcesRequest([m])) == store[Key(TypeOf(m), NameOf(m)) := m]
  {
    var r := BuildResourceToSet(m);
    assert BuildSetResourcesRequest([m]) == [r] && [r][..0] == [];
    assert PutAll(store, [r]) == Put(store, r);
  }

  lemma ListenerOnlyRefused(name: string, route: string)
    ensures !Accepts(ListenerOnly(name, route))
  {
    var store := ListenerOnly(name, route);
    assert route in RdsReference(store[ListenerKey(name)]);
    assert route in RdsReferences(store);
    assert RouteNames(store) == {};
  }

  lemma WithRouteAccepted(name: string, route: string)
    ensures Accepts(ListenerOnly(name, route)[Key(RouteType, route) := RouteConfiguration(route)])
  {
    var store := ListenerOnly(name, route)[Key(RouteType, route) := RouteConfiguration(route)];
    assert store[Key(RouteType, route)].RouteConfiguration? && store[ListenerKey(name)].Listener?;
    assert route in RdsReference(store[ListenerKey(name)]);
    assert RdsReferences(store) == {route} == RouteNames(store);
    assert EdsReferences(store) == {} == EndpointNames(store);
  }

  function ListenerThenRoute(name: string, route: string): seq<Request> {
    [BuildSetResourcesRequest([BuildServerListener(name, route)]),
     BuildSetResourcesRequest([BuildServerRouteConfig(route)])]
  }

  lemma AfterListener(name: string, route: string)
    ensures After(ListenerThenRoute(name, route), 1) == State(2, ListenerOnly(name, route), Some(Snapshot(1, map[])))
  {
    var reqs := ListenerThenRoute(name, route);
    EmptyAccepted();
    assert reqs[..0] == [];
    AfterNext(reqs, 0);
    PutOne(map[], BuildServerListener(name, route));
    ListenerOnlyRefused(name, route);
  }

  /** A server listener without its route configuration is refused, stays stored, and goes
      out together with the route configuration. */
  lemma RefusedThenPublished(name: string, route: string)
    ensures var reqs := ListenerThenRoute(name, route);
            var both := ListenerOnly(name, route)[Key(RouteType, route) := RouteConfiguration(route)];
            && After(reqs, 1) == State(2, ListenerOnly(name, route), Some(Snapshot(1, map[])))
            && After(reqs, 2) == State(3, both, Some(Snapshot(3, both)))
  {
    var reqs := ListenerThenRoute(name, route);
    AfterListener(name, route);
    AfterNext(reqs, 1);
    PutOne(ListenerOnly(name, route), BuildServerRouteConfig(route));
    WithRouteAccepted(name, route);
  }
}
