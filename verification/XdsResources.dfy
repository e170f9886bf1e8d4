/** xDS resources, as the test scripts build them and the control plane stores them. */
module XdsResources {
  import opened Wrappers

  /** Type URLs: the four that take part in references, the others the snapshot cache knows
      (secrets, runtimes, ...), and any that it does not. */
  datatype TypeUrl = ListenerType | RouteType | ClusterType | EndpointType | OtherKnownType(name: string) | UnknownType(name: string)

  /** A listener carries its routes inline (to a cluster) or refers to route configurations;
      an EDS cluster refers to a load assignment by its service name. */
  datatype Message =
    | Listener(name: string, cluster: Option<string>, routeConfigs: set<string>)
    | RouteConfiguration(name: string)
    | Cluster(name: string, edsService: Option<string>)
    | ClusterLoadAssignment(clusterName: string, host: string, port: int)
    | OtherMessage(known: bool, fullName: string, name: string, payload: int)

  function TypeOf(m: Message): TypeUrl {
    match m
    case Listener(_, _, _) => ListenerType
    case RouteConfiguration(_) => RouteType
    case Cluster(_, _) => ClusterType
    case ClusterLoadAssignment(_, _, _) => EndpointType
    case OtherMessage(known, fullName, _, _) => if known then OtherKnownType(fullName) else UnknownType(fullName)
  }

  function NameOf(m: Message): string {
    if m.ClusterLoadAssignment? then m.clusterName else m.name
  }

  // ---------- Builders ----------

  function BuildListener(listenerName: string, clusterName: string): Message {
    Listener(listenerName, Some(clusterName), {})
  }

  function BuildEndpoint(clusterName: string, host: string, port: int): Message {
    ClusterLoadAssignment(clusterName, host, port)
  }

  function BuildCluster(clusterName: string, serviceName: string): Message {
    Cluster(clusterName, Some(serviceName))
  }

  function BuildServerListener(name: string, routeConfigName: string): Message {
    Listener(name, None, {routeConfigName})
  }

  function BuildServerRouteConfig(routeConfigName: string): Message {
    RouteConfiguration(routeConfigName)
  }

  // ---------- Requests ----------

  /** The body of a resource in a request: absent, not parsable, or a message. */
  datatype Body = NoBody | Unparsable | Parsed(message: Message)

  datatype ResourceToSet = ResourceToSet(typeUrl: TypeUrl, name: string, body: Body)

  type Request = seq<ResourceToSet>

  function BuildResourceToSet(m: Message): ResourceToSet {
    ResourceToSet(TypeOf(m), NameOf(m), Parsed(m))
  }

  function BuildSetResourcesRequest(ms: seq<Message>): Request {
    seq(|ms|, i requires 0 <= i < |ms| => BuildResourceToSet(ms[i]))
  }

  function ServiceName(clusterName: string): string { clusterName + "_eds_service" }

  function BuildListenerAndCluster(listener: string, cluster: string, host: string, port: int): Request {
    BuildSetResourcesRequest([
      BuildListener(listener, cluster),
      BuildCluster(cluster, ServiceName(cluster)),
      BuildEndpoint(ServiceName(cluster), host, port)])
  }

  /** The key of the request is the type and name of the message it carries. */
  predicate WellNamed(r: ResourceToSet) {
    r.body.Parsed? ==> r.typeUrl == TypeOf(r.body.message) && r.name == NameOf(r.body.message)
  }

  lemma ServiceNamesDiffer(c: string, d: string)
    ensures ServiceName(c) == ServiceName(d) <==> c == d
  {
    if ServiceName(c) == ServiceName(d) {
      assert ServiceName(c)[..|c|] == c && ServiceName(d)[..|d|] == d;
    }
  }
}
