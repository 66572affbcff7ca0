/**
  The child objects the controller owns (Service, Route, Ingress,
  Deployment) and the cluster-scoped ConsoleLink, reduced to the fields the
  controller writes or reads, and the one sum type the cluster stores them as.
*/
module Objects {
  import opened Wrappers
  import opened Meta
  import opened AtlasMapTypes
  import opened Resources

  datatype ServicePort = ServicePort(name: string, port: int)

  datatype Service = Service(
    meta: ObjectMeta,
    serviceType: string,
    selector: map<string, string>,
    ports: seq<ServicePort>)

  /** An OpenShift Route: the host it answers on and the Service it sends traffic to. */
  datatype Route = Route(
    meta: ObjectMeta,
    host: string,
    targetKind: string,
    targetName: string,
    tlsTermination: string)

  datatype IngressBackend = IngressBackend(serviceName: string, portName: string, portNumber: int)

  /** A networking/v1 Ingress: a default backend and the hosts of its rules. */
  datatype Ingress = Ingress(
    meta: ObjectMeta,
    defaultBackend: IngressBackend,
    ruleHosts: seq<string>)

  datatype ContainerPort = ContainerPort(name: string, port: int)

  /** A pod container: the image, the HTTP paths of its two probes and its resources. */
  datatype Container = Container(
    name: string,
    image: string,
    ports: seq<ContainerPort>,
    livenessPath: string,
    readinessPath: string,
    resources: Requirements)

  /**
    An apps/v1 Deployment.  `replicas` is the spec's replica count, which the
    API server defaults, so it is always present; `readyReplicas` is status,
    written by the cluster and never by the controller.
  */
  datatype Deployment = Deployment(
    meta: ObjectMeta,
    replicas: Int32,
    selector: map<string, string>,
    templateLabels: map<string, string>,
    containers: seq<Container>,
    readyReplicas: Int32)

  /** An OpenShift console link shown on the dashboard of the listed namespaces. */
  datatype ConsoleLink = ConsoleLink(
    meta: ObjectMeta,
    text: string,
    href: string,
    location: string,
    namespaces: seq<string>)

  datatype Kind = ServiceKind | RouteKind | IngressKind | DeploymentKind | ConsoleLinkKind

  /** Where the cluster keeps an object: its kind and its namespaced name. */
  datatype Ref = Ref(kind: Kind, key: Key)

  datatype Object =
    | ServiceObject(service: Service)
    | RouteObject(route: Route)
    | IngressObject(ingress: Ingress)
    | DeploymentObject(deployment: Deployment)
    | ConsoleLinkObject(link: ConsoleLink)
  {
    function Kind(): Kind
    {
      match this
      case ServiceObject(_) => ServiceKind
      case RouteObject(_) => RouteKind
      case IngressObject(_) => IngressKind
      case DeploymentObject(_) => DeploymentKind
      case ConsoleLinkObject(_) => ConsoleLinkKind
    }

    function Meta(): ObjectMeta
    {
      match this
      case ServiceObject(s) => s.meta
      case RouteObject(r) => r.meta
      case IngressObject(i) => i.meta
      case DeploymentObject(d) => d.meta
      case ConsoleLinkObject(l) => l.meta
    }

    function Address(): Ref
    {
      Ref(Kind(), Meta().Key())
    }

    /** The same object with other metadata. */
    function WithMeta(m: ObjectMeta): (o: Object)
      ensures o.Kind() == Kind() && o.Meta() == m
      ensures o.DeploymentObject? == DeploymentObject?
      ensures DeploymentObject? ==> o.deployment == deployment.(meta := m)
    {
      match this
      case ServiceObject(s) => ServiceObject(s.(meta := m))
      case RouteObject(r) => RouteObject(r.(meta := m))
      case IngressObject(i) => IngressObject(i.(meta := m))
      case DeploymentObject(d) => DeploymentObject(d.(meta := m))
      case ConsoleLinkObject(l) => ConsoleLinkObject(l.(meta := m))
    }

    /** The object as the server stores it after a write: with the new resource version. */
    function WithVersion(v: string): (o: Object)
      ensures o.Kind() == Kind() && o.Address() == Address()
      ensures o.Meta() == Meta().(resourceVersion := v)
    {
      WithMeta(Meta().(resourceVersion := v))
    }

    /**
      What an update through the main endpoint keeps of the stored object:
      the status, which only the status endpoint writes.  Of the modelled
      fields only a Deployment's ready count is status.
    */
    function KeepingStatusOf(stored: Object): (o: Object)
      ensures o.Kind() == Kind() && o.Meta() == Meta()
      ensures o.DeploymentObject? && stored.DeploymentObject? ==>
        o.deployment == deployment.(readyReplicas := stored.deployment.readyReplicas)
      ensures !(o.DeploymentObject? && stored.DeploymentObject?) ==> o == this
    {
      match this
      case DeploymentObject(d) =>
        if stored.DeploymentObject? then DeploymentObject(d.(readyReplicas := stored.deployment.readyReplicas))
        else this
      case _ => this
    }
  }
}
