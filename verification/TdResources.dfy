/** The resources of the Traffic Director managers: names, places, references, and the
    order in which each manager class deletes them. */
module TdResources {
  import opened Wrappers
  import opened CloudGraph

  /** One constructor for each (collection, name) pair a manager can own, listed in an
      order that every manager's cleanup follows.  `Foreign` is anything else. */
  datatype Kind =
    | HttpRoute | GrpcRoute | Mesh | CloudRunMesh
    | ForwardingRule | AltForwardingRule
    | TargetHttpProxy | TargetGrpcProxy
    | ForwardingRuleIpv6 | TargetProxyIpv6
    | AltTargetProxy
    | UrlMap | AltUrlMap
    | BackendService | AltBackendService | AffinityBackendService
    | HealthCheck
    | EndpointPolicy | ServerTlsPolicy | ClientTlsPolicy | AuthzPolicy
    | Neg
    | Foreign(id: nat)

  datatype Location = Global | Region(name: string)

  datatype Key = Key(kind: Kind, location: Location)

  type Cloud = Graph<Key>

  datatype ManagerClass = Plain | AppNet | Secure | Spiffe | CloudRun

  datatype Settings =
    Settings(manager: ManagerClass, region: Option<string>, dualstack: bool, serverlessRegion: string)

  /** Only the plain and AppNet constructors take a region. */
  type Config = s: Settings | s.manager in {Secure, Spiffe, CloudRun} ==> s.region.None?
    witness Settings(Plain, None, false, "")

  function Rank(k: Kind): nat {
    match k
    case HttpRoute => 0 case GrpcRoute => 1 case Mesh => 2 case CloudRunMesh => 3
    case ForwardingRule => 4 case AltForwardingRule => 5
    case TargetHttpProxy => 6 case TargetGrpcProxy => 7
    case ForwardingRuleIpv6 => 8 case TargetProxyIpv6 => 9
    case AltTargetProxy => 10
    case UrlMap => 11 case AltUrlMap => 12
    case BackendService => 13 case AltBackendService => 14 case AffinityBackendService => 15
    case HealthCheck => 16
    case EndpointPolicy => 17 case ServerTlsPolicy => 18 case ClientTlsPolicy => 19 case AuthzPolicy => 20
    case Neg => 21
    case Foreign(id) => 22
  }

  // ---------- Names ----------

  /** The name constant of a resource in its collection. */
  function BaseName(k: Kind): string {
    match k
    case HttpRoute => "http-route" case GrpcRoute => "grpc-route"
    case Mesh => "mesh" case CloudRunMesh => "grpc-mesh"
    case ForwardingRule => "forwarding-rule" case AltForwardingRule => "forwarding-rule-alt"
    case ForwardingRuleIpv6 => "forwarding-rule-ipv6"
    case TargetHttpProxy => "target-proxy" case TargetGrpcProxy => "target-proxy"
    case TargetProxyIpv6 => "target-proxy-ipv6" case AltTargetProxy => "target-proxy-alt"
    case UrlMap => "url-map" case AltUrlMap => "url-map-alt"
    case BackendService => "backend-service" case AltBackendService => "backend-service-alt"
    case AffinityBackendService => "backend-service-affinity"
    case HealthCheck => "health-check"
    case EndpointPolicy => "endpoint-policy" case ServerTlsPolicy => "server-tls-policy"
    case ClientTlsPolicy => "client-tls-policy" case AuthzPolicy => "authz-policy"
    case Neg => "grpc-neg"
    case Foreign(id) => ""
  }

  /** The API collections the names live in. */
  datatype Collection =
    | HttpRoutes | GrpcRoutes | Meshes | ForwardingRules | TargetHttpProxies | TargetGrpcProxies | UrlMaps
    | BackendServices | HealthChecks | EndpointPolicies | ServerTlsPolicies | ClientTlsPolicies
    | AuthorizationPolicies | NetworkEndpointGroups | OtherCollection

  function CollectionOf(k: Kind): Collection {
    match k
    case HttpRoute => HttpRoutes case GrpcRoute => GrpcRoutes
    case Mesh => Meshes case CloudRunMesh => Meshes
    case ForwardingRule => ForwardingRules case AltForwardingRule => ForwardingRules
    case ForwardingRuleIpv6 => ForwardingRules
    case TargetHttpProxy => TargetHttpProxies case TargetProxyIpv6 => TargetHttpProxies
    case TargetGrpcProxy => TargetGrpcProxies case AltTargetProxy => TargetGrpcProxies
    case UrlMap => UrlMaps case AltUrlMap => UrlMaps
    case BackendService => BackendServices case AltBackendService => BackendServices
    case AffinityBackendService => BackendServices
    case HealthCheck => HealthChecks
    case EndpointPolicy => EndpointPolicies case ServerTlsPolicy => ServerTlsPolicies
    case ClientTlsPolicy => ClientTlsPolicies case AuthzPolicy => AuthorizationPolicies
    case Neg => NetworkEndpointGroups
    case Foreign(id) => OtherCollection
  }

  function MakeResourceName(prefix: string, name: string, suffix: string): string {
    if suffix == "" then prefix + "-" + name else prefix + "-" + name + "-" + suffix
  }

  lemma CollectionMates(k: Kind, l: Kind)
    requires !k.Foreign? && !l.Foreign? && k != l && CollectionOf(k) == CollectionOf(l)
    ensures |BaseName(k)| != |BaseName(l)|
  {
  }

  /** A kind really is one resource: under one prefix and suffix, two kinds of the same
      collection never get the same name. */
  lemma NamesTellKindsApart(prefix: string, suffix: string, k: Kind, l: Kind)
    requires !k.Foreign? && !l.Foreign? && k != l && CollectionOf(k) == CollectionOf(l)
    ensures MakeResourceName(prefix, BaseName(k), suffix) != MakeResourceName(prefix, BaseName(l), suffix)
  {
    CollectionMates(k, l);
    assert |MakeResourceName(prefix, BaseName(k), suffix)| != |MakeResourceName(prefix, BaseName(l), suffix)|;
  }

  /** The words `x` end the longer base name, and begin the other run's suffix. */
  predicate Moved(short: string, long: string, s: string, t: string, x: string) {
    long == short + "-" + x && s != "" && s == if t == "" then x else x + "-" + t
  }

  function Tail(suffix: string): string {
    if suffix == "" then "" else "-" + suffix
  }

  lemma NameParts(prefix: string, name: string, suffix: string)
    ensures MakeResourceName(prefix, name, suffix) == prefix + "-" + (name + Tail(suffix))
  {
    assert prefix + "-" + name + "-" + suffix == prefix + "-" + (name + ("-" + suffix));
    assert name + "" == name;
  }

  lemma MovedIsEqual(a: string, s: string, b: string, t: string, x: string)
    requires Moved(a, b, s, t, x)
    ensures a + Tail(s) == b + Tail(t)
  {
    assert s == x + Tail(t);
    assert a + ("-" + (x + Tail(t))) == (a + "-" + x) + Tail(t);
  }

  lemma LongerStart(a: string, c: string, b: string, d: string)
    requires a + c == b + d && |a| <= |b|
    ensures b == a + b[|a|..] && c == b[|a|..] + d
  {
    assert a == (a + c)[..|a|] && b == (b + d)[..|b|];
    assert b[..|a|] == (b + d)[..|a|];
    assert c == (a + c)[|a|..];
    assert b[|a|..] + d == (b + d)[|a|..];
  }

  lemma DashFirst(y: string, d: string, s: string)
    requires y != "" && "-" + s == y + d
    ensures y == "-" + y[1..] && s == y[1..] + d
  {
    assert ("-" + s)[0] == '-' && (y + d)[0] == y[0];
    assert s == ("-" + s)[1..] && y[1..] + d == (y + d)[1..];
  }

  lemma EqualIsMoved(a: string, s: string, b: string, t: string)
    requires |a| < |b| && a + Tail(s) == b + Tail(t)
    ensures exists x :: Moved(a, b, s, t, x)
  {
    LongerStart(a, Tail(s), b, Tail(t));
    var y := b[|a|..];
    DashFirst(y, Tail(t), s);
    assert a + y == a + "-" + y[1..];
    assert Moved(a, b, s, t, y[1..]);
  }

  lemma TailsEqualIff(a: string, s: string, b: string, t: string)
    requires |a| <= |b|
    ensures a + Tail(s) == b + Tail(t) <==> (a == b && s == t) || exists x :: Moved(a, b, s, t, x)
  {
    if x :| Moved(a, b, s, t, x) { MovedIsEqual(a, s, b, t, x); }
    if a + Tail(s) == b + Tail(t) {
      if |a| < |b| {
        EqualIsMoved(a, s, b, t);
      } else {
        SameBase(a, s, b, t);
      }
    }
  }

  lemma SameBase(a: string, s: string, b: string, t: string)
    requires |a| == |b| && a + Tail(s) == b + Tail(t)
    ensures a == b && s == t
  {
    assert a == (a + Tail(s))[..|a|] && b == (b + Tail(t))[..|a|];
    assert Tail(s) == (a + Tail(s))[|a|..] && Tail(t) == (b + Tail(t))[|a|..];
    if s != "" && t != "" { assert s == Tail(s)[1..] && t == Tail(t)[1..]; }
  }

  /** Between runs with different suffixes names are equal exactly when one base name goes on
      with the first words of the other run's suffix. */
  lemma NamesEqualIff(prefix: string, k: Kind, s: string, l: Kind, t: string)
    requires |BaseName(k)| <= |BaseName(l)|
    ensures MakeResourceName(prefix, BaseName(k), s) == MakeResourceName(prefix, BaseName(l), t)
            <==> (BaseName(k) == BaseName(l) && s == t) || exists x :: Moved(BaseName(k), BaseName(l), s, t, x)
  {
    NameParts(prefix, BaseName(k), s);
    NameParts(prefix, BaseName(l), t);
    TailsEqualIff(BaseName(k), s, BaseName(l), t);
    var a, b := BaseName(k) + Tail(s), BaseName(l) + Tail(t);
    assert a == (prefix + "-" + a)[|prefix| + 1..] && b == (prefix + "-" + b)[|prefix| + 1..];
  }

  /** One resource of two runs under one prefix never has one name. */
  lemma SuffixesTellRunsApart(prefix: string, k: Kind, s: string, t: string)
    ensures MakeResourceName(prefix, BaseName(k), s) == MakeResourceName(prefix, BaseName(k), t) <==> s == t
  {
    NamesEqualIff(prefix, k, s, k, t);
    var b := BaseName(k);
    forall x ensures !Moved(b, b, s, t, x) { assert |b + "-" + x| > |b|; }
  }

  /** But two resources can: the forwarding rule of a run with suffix "alt" has the name of the
      alternative forwarding rule of a run without. */
  lemma NamesOfRunsCanCollide(prefix: string)
    ensures MakeResourceName(prefix, BaseName(ForwardingRule), "alt") == MakeResourceName(prefix, BaseName(AltForwardingRule), "")
    ensures CollectionOf(ForwardingRule) == CollectionOf(AltForwardingRule)
  {
    assert Moved(BaseName(ForwardingRule), BaseName(AltForwardingRule), "alt", "", "alt");
    NamesEqualIff(prefix, ForwardingRule, "alt", AltForwardingRule, "");
  }

  // ---------- Places ----------

  function Scope(cfg: Config): Location {
    match cfg.region case None => Global case Some(r) => Region(r)
  }

  /** Where a resource is created. */
  function CreateLocation(cfg: Config, k: Kind): Location {
    match k
    case ForwardingRule => Scope(cfg) case ForwardingRuleIpv6 => Scope(cfg)
    case TargetHttpProxy => Scope(cfg)
    case UrlMap => Scope(cfg) case AltUrlMap => Scope(cfg)
    case BackendService => Scope(cfg)
    case HttpRoute => Scope(cfg) case GrpcRoute => Scope(cfg) case Mesh => Scope(cfg) case CloudRunMesh => Scope(cfg)
    case Neg => Region(cfg.serverlessRegion)
    case _ => Global
  }

  /** Where its delete looks for it: the IPv6 forwarding rule alone is looked up globally. */
  function DeleteLocation(cfg: Config, k: Kind): Location {
    match k
    case ForwardingRuleIpv6 => Global
    case _ => CreateLocation(cfg, k)
  }

  function Created(cfg: Config, k: Kind): Key { Key(k, CreateLocation(cfg, k)) }

  function Deleted(cfg: Config, k: Kind): Key { Key(k, DeleteLocation(cfg, k)) }

  // ---------- Cleanup order ----------

  const FRONT_KINDS := [ForwardingRule, AltForwardingRule, TargetHttpProxy, TargetGrpcProxy]
  const IPV6_KINDS := [ForwardingRuleIpv6, TargetProxyIpv6]
  const BACK_KINDS := [AltTargetProxy, UrlMap, AltUrlMap,
                       BackendService, AltBackendService, AffinityBackendService, HealthCheck]
  const SECURE_KINDS := [EndpointPolicy, ServerTlsPolicy, ClientTlsPolicy, AuthzPolicy]

  function BasePlan(cfg: Config): seq<Kind> {
    FRONT_KINDS + (if cfg.dualstack then IPV6_KINDS else []) + BACK_KINDS
  }

  function SecurePlan(cfg: Config): seq<Kind> {
    BasePlan(cfg) + SECURE_KINDS
  }

  function Plan(cfg: Config): seq<Kind> {
    match cfg.manager
    case Plain => BasePlan(cfg)
    case AppNet => [HttpRoute, GrpcRoute, Mesh] + BasePlan(cfg)
    case Secure => SecurePlan(cfg)
    case Spiffe => [GrpcRoute, Mesh] + SecurePlan(cfg)
    case CloudRun => [HttpRoute, GrpcRoute, CloudRunMesh] + BasePlan(cfg) + [Neg]
  }

  /** The resource is one this manager creates, in the place where it creates it. */
  predicate Owned(cfg: Config, key: Key) {
    key.kind in Plan(cfg) && key.location == CreateLocation(cfg, key.kind)
  }

  function KeysOf(cfg: Config, kinds: seq<Kind>): (ks: seq<Key>)
    ensures |ks| == |kinds| && forall i :: 0 <= i < |ks| ==> ks[i] == Deleted(cfg, kinds[i])
  {
    seq(|kinds|, i requires 0 <= i < |kinds| => Deleted(cfg, kinds[i]))
  }

  ghost predicate Ascending(kinds: seq<Kind>) {
    forall i, j :: 0 <= i < j < |kinds| ==> Rank(kinds[i]) < Rank(kinds[j])
  }

  lemma RankInjective(k: Kind, l: Kind)
    requires !k.Foreign? && !l.Foreign? && Rank(k) == Rank(l)
    ensures k == l
  {
  }

  /** The ranks of `kinds` lie in [lo, hi). */
  ghost predicate Within(kinds: seq<Kind>, lo: nat, hi: nat) {
    forall k :: k in kinds ==> lo <= Rank(k) < hi
  }

  lemma AscendingAppend(a: seq<Kind>, b: seq<Kind>, lo: nat, mid: nat, hi: nat)
    requires Ascending(a) && Ascending(b) && Within(a, lo, mid) && Within(b, mid, hi) && lo <= mid <= hi
    ensures Ascending(a + b) && Within(a + b, lo, hi)
  {
  }

  lemma FrontAscending()
    ensures Ascending(FRONT_KINDS) && Within(FRONT_KINDS, 4, 8)
    ensures Ascending(IPV6_KINDS) && Within(IPV6_KINDS, 8, 10)
  {
  }

  lemma BackAscending()
    ensures Ascending(BACK_KINDS) && Within(BACK_KINDS, 10, 17)
  {
  }

  lemma SecureAscending()
    ensures Ascending(SECURE_KINDS) && Within(SECURE_KINDS, 17, 21)
  {
  }

  lemma MeshKindsAscending()
    ensures Ascending([HttpRoute, GrpcRoute, Mesh]) && Within([HttpRoute, GrpcRoute, Mesh], 0, 4)
    ensures Ascending([HttpRoute, GrpcRoute, CloudRunMesh]) && Within([HttpRoute, GrpcRoute, CloudRunMesh], 0, 4)
    ensures Ascending([GrpcRoute, Mesh]) && Within([GrpcRoute, Mesh], 0, 4)
    ensures Ascending([Neg]) && Within([Neg], 17, 22)
  {
  }

  lemma BasePlanAscending(cfg: Config)
    ensures Ascending(BasePlan(cfg)) && Within(BasePlan(cfg), 4, 17)
  {
    FrontAscending();
    BackAscending();
    var ipv6 := if cfg.dualstack then IPV6_KINDS else [];
    AscendingAppend(FRONT_KINDS, ipv6, 4, 8, 10);
    AscendingAppend(FRONT_KINDS + ipv6, BACK_KINDS, 4, 10, 17);
  }

  lemma SecurePlanAscending(cfg: Config)
    ensures Ascending(SecurePlan(cfg)) && Within(SecurePlan(cfg), 4, 21)
  {
    BasePlanAscending(cfg);
    SecureAscending();
    AscendingAppend(BasePlan(cfg), SECURE_KINDS, 4, 17, 21);
  }

  /** Every manager class cleans up in one and the same order of kinds. */
  lemma PlanAscending(cfg: Config)
    ensures Ascending(Plan(cfg)) && Within(Plan(cfg), 0, 22)
  {
    BasePlanAscending(cfg);
    SecurePlanAscending(cfg);
    MeshKindsAscending();
    match cfg.manager {
      case Plain =>
      case AppNet => AscendingAppend([HttpRoute, GrpcRoute, Mesh], BasePlan(cfg), 0, 4, 17);
      case Secure =>
      case Spiffe => AscendingAppend([GrpcRoute, Mesh], SecurePlan(cfg), 0, 4, 21);
      case CloudRun =>
        AscendingAppend([HttpRoute, GrpcRoute, CloudRunMesh], BasePlan(cfg), 0, 4, 17);
        AscendingAppend([HttpRoute, GrpcRoute, CloudRunMesh] + BasePlan(cfg), [Neg], 0, 17, 22);
    }
  }

  // ---------- References ----------

  predicate IsBackendService(k: Kind) {
    k.BackendService? || k.AltBackendService? || k.AffinityBackendService?
  }

  /** What the resources of one manager may refer to. */
  predicate MayRefer(from: Kind, to: Kind) {
    || to.Foreign?
    || match from
       case HttpRoute => to.Mesh? || to.CloudRunMesh? || IsBackendService(to)
       case GrpcRoute => to.Mesh? || to.CloudRunMesh? || IsBackendService(to)
       case ForwardingRule => to.TargetHttpProxy? || to.TargetGrpcProxy?
       case AltForwardingRule => to.AltTargetProxy?
       case ForwardingRuleIpv6 => to.TargetProxyIpv6?
       case TargetHttpProxy => to.UrlMap?
       case TargetGrpcProxy => to.UrlMap?
       case TargetProxyIpv6 => to.UrlMap?
       case AltTargetProxy => to.AltUrlMap?
       case UrlMap => IsBackendService(to)
       case AltUrlMap => IsBackendService(to)
       case BackendService => to.HealthCheck? || to.ClientTlsPolicy? || to.Neg?
       case AltBackendService => to.HealthCheck? || to.ClientTlsPolicy? || to.Neg?
       case AffinityBackendService => to.HealthCheck? || to.ClientTlsPolicy? || to.Neg?
       case EndpointPolicy => to.ServerTlsPolicy? || to.AuthzPolicy?
       case _ => false
  }

  /** References go from this manager's resources to this manager's resources or to foreign
      ones, along the lines above; nobody else refers to them, and nothing refers to a
      forwarding rule. */
  ghost predicate WellTyped(cfg: Config, cloud: Cloud) {
    forall r, t {:trigger t in cloud[r]} :: r in cloud && t in cloud[r] ==>
      && r != t && !t.kind.ForwardingRuleIpv6?
      && (Owned(cfg, r) || Owned(cfg, t)
          ==> Owned(cfg, r) && MayRefer(r.kind, t.kind) && (Owned(cfg, t) || t.kind.Foreign?))
  }

  lemma ReferencesAscend(from: Kind, to: Kind)
    requires MayRefer(from, to) && !from.Foreign?
    ensures Rank(from) < Rank(to)
  {
  }

  lemma NoReferenceUp(cfg: Config, cloud: Cloud, from: Kind, to: Kind)
    requires WellTyped(cfg, cloud) && from in Plan(cfg) && to in Plan(cfg) && Rank(to) <= Rank(from)
    requires Deleted(cfg, from) in cloud
    ensures Deleted(cfg, to) !in cloud[Deleted(cfg, from)]
  {
    PlanAscending(cfg);
    if MayRefer(from, to) { ReferencesAscend(from, to); }
  }

  lemma AscendingIsReverseTopological(cfg: Config, cloud: Cloud, kinds: seq<Kind>)
    requires WellTyped(cfg, cloud) && Ascending(kinds)
    requires forall k :: k in kinds ==> k in Plan(cfg)
    ensures ReverseTopological(cloud, KeysOf(cfg, kinds))
  {
    var ks := KeysOf(cfg, kinds);
    forall i, j | 0 <= i <= j < |ks| && ks[j] in cloud ensures ks[i] !in cloud[ks[j]] {
      NoReferenceUp(cfg, cloud, kinds[j], kinds[i]);
    }
  }
}
