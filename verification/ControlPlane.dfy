/** The xDS control plane for tests: stored resources, and a published snapshot that lags
    behind them after a refused update. */
module ControlPlane {
  import opened Wrappers
  import opened XdsResources

  datatype Key = Key(resourceType: TypeUrl, resourceName: string)

  type Store = map<Key, Message>

  // The version is an unsigned 32-bit counter.
  const VERSIONS: nat := 0x1_0000_0000

  type Version = v: nat | v < VERSIONS witness 0

  function NextVersion(v: Version): Version {
    if v == VERSIONS - 1 then 0 else v + 1
  }

  /** A snapshot as the cache serves it: a version, and its resources by type and name. */
  datatype Snapshot = Snapshot(version: Version, resources: Store)

  datatype State = State(version: Version, resources: Store, cache: Option<Snapshot>)

  // ---------- When a snapshot is accepted ----------

  /** The load assignment an EDS cluster refers to: its service name, or else its own name. */
  function EdsReference(m: Message): set<string> {
    if m.Cluster? && m.edsService.Some? then {if m.edsService.value == "" then m.name else m.edsService.value} else {}
  }

  function RdsReference(m: Message): set<string> {
    if m.Listener? then m.routeConfigs else {}
  }

  function EdsReferences(store: Store): set<string> {
    set k, s | k in store && s in EdsReference(store[k]) :: s
  }

  function RdsReferences(store: Store): set<string> {
    set k, s | k in store && s in RdsReference(store[k]) :: s
  }

  function EndpointNames(store: Store): set<string> {
    set k | k in store && store[k].ClusterLoadAssignment? :: store[k].clusterName
  }

  function RouteNames(store: Store): set<string> {
    set k | k in store && store[k].RouteConfiguration? :: store[k].name
  }

  /** The referenced EDS and RDS names are exactly those present. */
  predicate Consistent(store: Store) {
    EdsReferences(store) == EndpointNames(store) && RdsReferences(store) == RouteNames(store)
  }

  predicate Accepts(store: Store) {
    (forall k :: k in store ==> !k.resourceType.UnknownType?) && Consistent(store)
  }

  // ---------- One update ----------

  function Put(store: Store, r: ResourceToSet): Store {
    match r.body
    case NoBody => store - {Key(r.typeUrl, r.name)}
    case Unparsable => store
    case Parsed(m) => store[Key(r.typeUrl, r.name) := m]
  }

  function PutAll(store: Store, req: Request): Store {
    if req == [] then store else Put(PutAll(store, req[..|req| - 1]), req[|req| - 1])
  }

  function Refresh(st: State): State {
    if Accepts(st.resources) then st.(cache := Some(Snapshot(st.version, st.resources))) else st
  }

  function Serve(st: State, req: Request): State {
    Refresh(State(if req == [] then st.version else NextVersion(st.version), PutAll(st.resources, req), st.cache))
  }

  /** The state once the server runs: version 1 of nothing is published. */
  function Started(): State {
    Refresh(State(1, map[], None))
  }

  function ServeAll(st: State, reqs: seq<Request>): State {
    if reqs == [] then st else Serve(ServeAll(st, reqs[..|reqs| - 1]), reqs[|reqs| - 1])
  }

  // ---------- One update, key by key ----------

  /** Entry i of the request is about key k and says something. */
  predicate Decides(req: Request, i: nat, k: Key)
    requires i < |req|
  {
    Key(req[i].typeUrl, req[i].name) == k && req[i].body != Unparsable
  }

  /** The last entry about a key that says anything counts: without a body it deletes, with a
      message it sets.  Keys that no entry says anything about stay as they were. */
  lemma {:induction false} LastEntryCounts(store: Store, req: Request, k: Key)
    ensures forall i: nat :: i < |req| && Decides(req, i, k) && (forall j :: i < j < |req| ==> !Decides(req, j, k)) ==>
              if req[i].body == NoBody then k !in PutAll(store, req)
              else k in PutAll(store, req) && req[i].body == Parsed(PutAll(store, req)[k])
    ensures (forall i: nat :: i < |req| ==> !Decides(req, i, k)) ==>
              if k in store then k in PutAll(store, req) && PutAll(store, req)[k] == store[k] else k !in PutAll(store, req)
  {
    if req != [] {
      var front, l := req[..|req| - 1], |req| - 1;
      LastEntryCounts(store, front, k);
      assert forall i: nat :: i < l ==> (Decides(front, i, k) <==> Decides(req, i, k));
      assert Decides(req, l, k) <==> Key(req[l].typeUrl, req[l].name) == k && req[l].body != Unparsable;
    }
  }

  /** The cluster refers to the load assignment `s`. */
  predicate RefersToAssignment(m: Message, s: string) {
    m.Cluster? && m.edsService.Some? && s == if m.edsService == Some("") then m.name else m.edsService.value
  }

  ghost predicate AssignmentWanted(store: Store, s: string) {
    exists k :: k in store && RefersToAssignment(store[k], s)
  }

  ghost predicate AssignmentThere(store: Store, s: string) {
    exists k :: k in store && store[k].ClusterLoadAssignment? && store[k].clusterName == s
  }

  ghost predicate RouteWanted(store: Store, s: string) {
    exists k :: k in store && store[k].Listener? && s in store[k].routeConfigs
  }

  ghost predicate RouteThere(store: Store, s: string) {
    exists k :: k in store && store[k] == RouteConfiguration(s)
  }

  lemma WantedAndThere(store: Store, s: string)
    ensures AssignmentWanted(store, s) <==> s in EdsReferences(store)
    ensures AssignmentThere(store, s) <==> s in EndpointNames(store)
    ensures RouteWanted(store, s) <==> s in RdsReferences(store)
    ensures RouteThere(store, s) <==> s in RouteNames(store)
  {
    forall k | k in store
      ensures RefersToAssignment(store[k], s) <==> s in EdsReference(store[k])
      ensures store[k].Listener? && s in store[k].routeConfigs <==> s in RdsReference(store[k])
    {
    }
  }

  /** A store is published unless it has a message of an unknown type, a reference to a missing
      assignment or route configuration, or one of those that nothing refers to. */
  lemma AcceptsIff(store: Store)
    ensures Accepts(store)
            <==> (&& (forall k :: k in store ==> !k.resourceType.UnknownType?)
                  && (forall s :: AssignmentWanted(store, s) <==> AssignmentThere(store, s))
                  && (forall s :: RouteWanted(store, s) <==> RouteThere(store, s)))
  {
    forall s
      ensures s in EdsReferences(store) <==> AssignmentWanted(store, s)
      ensures s in EndpointNames(store) <==> AssignmentThere(store, s)
      ensures s in RdsReferences(store) <==> RouteWanted(store, s)
      ensures s in RouteNames(store) <==> RouteThere(store, s)
    {
      WantedAndThere(store, s);
    }
  }

  // ---------- The service object ----------

  datatype Response = Resources(resources: set<Message>) | Refused

  /** All methods run under the service's mutex, so each is one step. */
  class ControlService {
    var version: Version
    var resources: Store
    var filters: map<TypeUrl, set<string>>
    var cache: Option<Snapshot>

    ghost function St(): State
      reads this
    {
      State(version, resources, cache)
    }

    /** `main` and the first part of `RunServer`. */
    constructor ()
      ensures St() == Started() && filters == map[]
    {
      version, resources, filters, cache := 1, map[], map[], None;
      new;
      var ok := RefreshSnapshot();
    }

    method RefreshSnapshot() returns (ok: bool)
      modifies `cache
      ensures St() == Refresh(old(St()))
      ensures ok == Accepts(resources)
    {
      ok := Accepts(resources);
      if ok { cache := Some(Snapshot(version, resources)); }
    }

    method SetResources(req: Request) returns (response: Response)
      modifies `version, `resources, `cache
      ensures St() == Serve(old(St()), req)
      ensures response == if Accepts(resources) then Resources(resources.Values) else Refused
    {
      if |req| > 0 { version := NextVersion(version); }
      for i := 0 to |req|
        invariant resources == PutAll(old(resources), req[..i])
        invariant cache == old(cache) && version == if req == [] then old(version) else NextVersion(old(version))
      {
        assert req[..i + 1][..i] == req[..i];
        var r := req[i];
        var key := Key(r.typeUrl, r.name);
        match r.body {
          case NoBody => resources := resources - {key};
          case Unparsable =>
          case Parsed(body) => resources := resources[key := body];
        }
      }
      assert req[..|req|] == req;
      var ok := RefreshSnapshot();
      response := if ok then Resources(resources.Values) else Refused;
    }

    predicate Filtered(typeUrl: TypeUrl, name: string)
      reads this
    {
      typeUrl in filters && name in filters[typeUrl]
    }

    method StopOnRequest(typeUrl: TypeUrl, name: string) returns (all: set<(TypeUrl, string)>)
      modifies `filters
      ensures forall t, n :: Filtered(t, n) <==> old(Filtered(t, n)) || (t == typeUrl && n == name)
      ensures forall t, n :: (t, n) in all <==> Filtered(t, n)
    {
      filters := filters[typeUrl := (if typeUrl in filters then filters[typeUrl] else {}) + {name}];
      all := set t, n | t in filters && n in filters[t] :: (t, n);
    }

    /** Whether the server stops itself on this request. */
    method OnStreamRequest(typeUrl: TypeUrl, names: seq<string>) returns (exit: bool)
      ensures exit <==> exists n :: n in names && Filtered(typeUrl, n)
    {
      if typeUrl in filters {
        for i := 0 to |names|
          invariant forall j :: 0 <= j < i ==> names[j] !in filters[typeUrl]
        {
          if names[i] in filters[typeUrl] {
            assert Filtered(typeUrl, names[i]);
            return true;
          }
        }
      }
      return false;
    }
  }

  // ---------- Over a whole run ----------

  function After(reqs: seq<Request>, i: nat): State
    requires i <= |reqs|
  {
    ServeAll(Started(), reqs[..i])
  }

  lemma AfterNext(reqs: seq<Request>, i: nat)
    requires i < |reqs|
    ensures After(reqs, i + 1) == Serve(After(reqs, i), reqs[i])
  {
    assert reqs[..i + 1][..i] == reqs[..i];
  }

  lemma EmptyAccepted()
    ensures Accepts(map[])
    ensures Started() == State(1, map[], Some(Snapshot(1, map[])))
  {
  }

  ghost predicate LastAccepted(reqs: seq<Request>, n: nat, j: nat)
    requires n <= |reqs|
  {
    && j <= n && Accepts(After(reqs, j).resources)
    && forall k :: j < k <= n ==> !Accepts(After(reqs, k).resources)
  }

  /** At any time the cached snapshot is consistent and is the state at the last accepted
      refresh: its version, and what was stored then. */
  lemma {:induction false} CacheIsLastAccepted(reqs: seq<Request>, n: nat) returns (j: nat)
    requires n <= |reqs|
    ensures LastAccepted(reqs, n, j)
    ensures After(reqs, n).cache == Some(Snapshot(After(reqs, j).version, After(reqs, j).resources))
    ensures Consistent(After(reqs, n).cache.value.resources)
  {
    if n == 0 {
      EmptyAccepted();
      assert reqs[..0] == [];
      j := 0;
    } else {
      AfterNext(reqs, n - 1);
      if Accepts(After(reqs, n).resources) {
        j := n;
      } else {
        j := CacheIsLastAccepted(reqs, n - 1);
      }
    }
  }

  function Flatten(reqs: seq<Request>): Request {
    if reqs == [] then [] else Flatten(reqs[..|reqs| - 1]) + reqs[|reqs| - 1]
  }

  lemma {:induction false} PutAllAppend(store: Store, a: Request, b: Request)
    ensures PutAll(store, a + b) == PutAll(PutAll(store, a), b)
  {
    if b == [] {
      assert a + b == a;
    } else {
      assert (a + b)[..|a + b| - 1] == a + b[..|b| - 1];
      PutAllAppend(store, a, b[..|b| - 1]);
    }
  }

  /** Nothing of a refused update is lost: what is stored is the effect of every update,
      accepted or not, and the next accepted one publishes all of it. */
  lemma {:induction false} RefusedUpdatesGoOutLater(reqs: seq<Request>, n: nat)
    requires n <= |reqs|
    ensures After(reqs, n).resources == PutAll(map[], Flatten(reqs[..n]))
    ensures Accepts(After(reqs, n).resources) ==>
              After(reqs, n).cache == Some(Snapshot(After(reqs, n).version, PutAll(map[], Flatten(reqs[..n]))))
  {
    if n > 0 {
      RefusedUpdatesGoOutLater(reqs, n - 1);
      AfterNext(reqs, n - 1);
      assert reqs[..n][..n - 1] == reqs[..n - 1];
      PutAllAppend(map[], Flatten(reqs[..n - 1]), reqs[n - 1]);
    } else {
      EmptyAccepted();
      assert reqs[..0] == [];
    }
  }

  /** Every resource is stored under the type and name of its message, so that indexing a
      snapshot by message, as the cache does, is indexing it by key. */
  ghost predicate Keyed(store: Store) {
    forall k :: k in store ==> k == Key(TypeOf(store[k]), NameOf(store[k]))
  }

  lemma {:induction false} PutAllKeepsKeyed(store: Store, req: Request)
    requires Keyed(store) && forall r :: r in req ==> WellNamed(r)
    ensures Keyed(PutAll(store, req))
  {
    if req != [] {
      PutAllKeepsKeyed(store, req[..|req| - 1]);
      assert WellNamed(req[|req| - 1]);
    }
  }

  /** With requests whose keys name their messages, no two stored resources of a snapshot
      ever share a type and a message name. */
  lemma {:induction false} StoreStaysKeyed(reqs: seq<Request>, n: nat)
    requires n <= |reqs| && forall req, r :: req in reqs && r in req ==> WellNamed(r)
    ensures After(reqs, n).cache.Some?
    ensures Keyed(After(reqs, n).resources) && Keyed(After(reqs, n).cache.value.resources)
  {
    if n == 0 {
      EmptyAccepted();
      assert reqs[..0] == [];
    } else {
      StoreStaysKeyed(reqs, n - 1);
      AfterNext(reqs, n - 1);
      assert reqs[n - 1] in reqs;
      PutAllKeepsKeyed(After(reqs, n - 1).resources, reqs[n - 1]);
    }
  }

  // ---------- Versions ----------

  function NonEmpty(reqs: seq<Request>): nat {
    if reqs == [] then 0 else NonEmpty(reqs[..|reqs| - 1]) + if reqs[|reqs| - 1] == [] then 0 else 1
  }

  /** The version after `count` non-empty updates. */
  function VersionNumber(count: nat): Version {
    if count == 0 then 1 else NextVersion(VersionNumber(count - 1))
  }

  lemma {:induction false} VersionNumberIs(count: nat)
    requires count <= VERSIONS
    ensures VersionNumber(count) == if count == VERSIONS then 1 else if count == VERSIONS - 1 then 0 else count + 1
  {
    if count > 0 { VersionNumberIs(count - 1); }
  }

  lemma {:induction false} VersionCounts(reqs: seq<Request>, n: nat)
    requires n <= |reqs|
    ensures After(reqs, n).version == VersionNumber(NonEmpty(reqs[..n]))
  {
    if n > 0 {
      VersionCounts(reqs, n - 1);
      AfterNext(reqs, n - 1);
      assert reqs[..n][..n - 1] == reqs[..n - 1];
    } else {
      assert reqs[..0] == [];
    }
  }

  lemma {:induction false} EqualCountsEqualStores(reqs: seq<Request>, i: nat, j: nat)
    requires i <= j <= |reqs|
    ensures NonEmpty(reqs[..i]) <= NonEmpty(reqs[..j])
    ensures NonEmpty(reqs[..i]) == NonEmpty(reqs[..j]) ==> After(reqs, i).resources == After(reqs, j).resources
  {
    if i < j {
      EqualCountsEqualStores(reqs, i, j - 1);
      AfterNext(reqs, j - 1);
      assert reqs[..j][..j - 1] == reqs[..j - 1];
    }
  }

  lemma SameVersionSameStore(reqs: seq<Request>, a: nat, b: nat)
    requires a <= |reqs| && b <= |reqs| && NonEmpty(reqs) < VERSIONS
    requires After(reqs, a).version == After(reqs, b).version
    ensures After(reqs, a).resources == After(reqs, b).resources
  {
    assert NonEmpty(reqs[..a]) == NonEmpty(reqs[..b]) by {
      VersionCounts(reqs, a);
      VersionCounts(reqs, b);
      assert reqs[..|reqs|] == reqs;
      EqualCountsEqualStores(reqs, a, |reqs|);
      EqualCountsEqualStores(reqs, b, |reqs|);
      VersionNumberIs(NonEmpty(reqs[..a]));
      VersionNumberIs(NonEmpty(reqs[..b]));
    }
    if a <= b { EqualCountsEqualStores(reqs, a, b); } else { EqualCountsEqualStores(reqs, b, a); }
  }

  /** With fewer than 2^32 non-empty updates, snapshots published under the same version
      have the same contents. */
  lemma EqualVersionsEqualContents(reqs: seq<Request>, i: nat, j: nat)
    requires i <= |reqs| && j <= |reqs| && NonEmpty(reqs) < 0x1_0000_0000
    ensures After(reqs, i).cache.Some? && After(reqs, j).cache.Some?
    ensures After(reqs, i).cache.value.version == After(reqs, j).cache.value.version
            ==> After(reqs, i).cache == After(reqs, j).cache
  {
    var a := CacheIsLastAccepted(reqs, i);
    var b := CacheIsLastAccepted(reqs, j);
    if After(reqs, a).version == After(reqs, b).version { SameVersionSameStore(reqs, a, b); }
  }

  function Secret(payload: int): Message {
    OtherMessage(true, "envoy.extensions.transport_sockets.tls.v3.Secret", "s", payload)
  }

  const SECRET_KEY := Key(TypeOf(Secret(0)), "s")

  function SecretUpdate(payload: int): Request {
    BuildSetResourcesRequest([Secret(payload)])
  }

  function SecretUpdates(n: nat): seq<Request> {
    seq(n, i => SecretUpdate(i))
  }

  function SecretStore(payload: int): Store {
    map[SECRET_KEY := Secret(payload)]
  }

  lemma SecretStep(store: Store, payload: int)
    requires store.Keys <= {SECRET_KEY}
    ensures PutAll(store, SecretUpdate(payload)) == SecretStore(payload)
    ensures Accepts(SecretStore(payload)) && SecretUpdate(payload) != []
  {
  }

  lemma {:induction false} AfterSecretUpdates(n: nat)
    ensures var st := ServeAll(Started(), SecretUpdates(n));
            && st.version == VersionNumber(n)
            && st.resources == (if n == 0 then map[] else SecretStore(n - 1))
            && st.cache == Some(Snapshot(st.version, st.resources))
  {
    if n == 0 {
      EmptyAccepted();
    } else {
      AfterSecretUpdates(n - 1);
      assert SecretUpdates(n)[..n - 1] == SecretUpdates(n - 1);
      SecretStep(ServeAll(Started(), SecretUpdates(n - 1)).resources, n - 1);
    }
  }

  /** The bound is sharp: after 2^32 updates the version is back at 1, over other contents. */
  lemma VersionsWrapAround()
    ensures var before, after := Started().cache, ServeAll(Started(), SecretUpdates(0x1_0000_0000)).cache;
            before.Some? && after.Some? && after.value.version == before.value.version == 1 && after != before
  {
    AfterSecretUpdates(VERSIONS);
    VersionNumberIs(VERSIONS);
    EmptyAccepted();
    assert SECRET_KEY in ServeAll(Started(), SecretUpdates(VERSIONS)).resources;
  }
}
