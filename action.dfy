/**
  What the actions share: their kinds and names, the environment they run
  in, the list the controller builds once at start-up, the controller
  owner reference set before a child is created, and the phase write.
*/
module ActionBase {
  import opened Wrappers
  import opened Errors
  import opened Meta
  import opened AtlasMapTypes
  import opened Resources
  import opened Objects
  import opened ClusterApi
  import opened Util

  /** The port the AtlasMap container serves HTTP on, and the Service and Ingress forward to. */
  const PortAtlasMap: int := 8585

  /** The five actions; each converges one kind of child object. */
  datatype ActionKind = ServiceAction | RouteAction | IngressAction | DeploymentAction | ConsoleLinkAction
  {
    /** GetName: the name each action is built with. */
    function Name(): (name: string)
      ensures this == ServiceAction ==> name == "Service"
      ensures this == RouteAction ==> name == "Route"
      ensures this == IngressAction ==> name == "Ingress"
      ensures this == DeploymentAction ==> name == "Deployment"
      ensures this == ConsoleLinkAction ==> name == "ConsoleLink"
    {
      match this
      case ServiceAction => "Service"
      case RouteAction => "Route"
      case IngressAction => "Ingress"
      case DeploymentAction => "Deployment"
      case ConsoleLinkAction => "ConsoleLink"
    }

    /** The kind of child object the action owns. */
    function ChildKind(): Kind
    {
      match this
      case ServiceAction => ServiceKind
      case RouteAction => RouteKind
      case IngressAction => IngressKind
      case DeploymentAction => DeploymentKind
      case ConsoleLinkAction => ConsoleLinkKind
    }
  }

  /** Names identify the actions: a log line names exactly one. */
  lemma NamesIdentifyActions(a: ActionKind, b: ActionKind)
    ensures a.Name() == b.Name() <==> a == b
  {
  }

  /**
    What the actions learn from outside the store: whether the cluster
    serves the OpenShift route API (a discovery call that may fail), the
    outcome of the ClusterVersion lookup, whether the AtlasMap kind is
    registered in the scheme owner references are built from, the quantity
    parser, and the order in which the two entries of each resource map are
    walked (Go leaves map order unspecified).
  */
  datatype Env = Env(
    openShift: Result<bool, Error>,
    clusterVersion: VersionLookup,
    ownerRegistered: bool,
    parse: QuantityParser,
    limitsOrder: seq<ResourceName>,
    requestsOrder: seq<ResourceName>)
  {
    predicate Valid()
    {
      && ReadsZero(parse)
      && (limitsOrder == [Cpu, Memory] || limitsOrder == [Memory, Cpu])
      && (requestsOrder == [Cpu, Memory] || requestsOrder == [Memory, Cpu])
    }

    /** IsOpenShift's answer: a failed discovery answers false, beside its error. */
    function IsOpenShift(): bool
    {
      openShift.Ok? && openShift.value
    }
  }

  /**
    No call fails for a reason of its own: the server raises no error and
    no other writer interferes.  A write can then be refused only for what
    the store holds (a missing object, a stale version, an existing name).
  */
  predicate Undisturbed(c: Cluster)
  {
    c.faults == map[]
  }

  /** The store as the actions require and keep it. */
  ghost predicate Sound(c: Cluster)
    reads c
  {
    c.Valid() && c.DeploymentsAnnotated()
  }

  /**
    The in-memory resource carries the stored metadata and spec; its status
    may differ, since a refused phase write is not retried.  Every action
    that succeeds leaves the resource it hands on in this state.
  */
  ghost predicate Coherent(c: Cluster, cr: AtlasMap)
    reads c
  {
    && cr.Key() in c.atlasMaps
    && c.atlasMaps[cr.Key()].meta == cr.meta
    && c.atlasMaps[cr.Key()].spec == cr.spec
  }

  /** The step wrote at most the child object at `r` and the resource at `k`. */
  twostate predicate WritesAt(c: Cluster, r: Ref, k: Key)
    reads c
  {
    c.objects - {r} == old(c.objects) - {r} && c.atlasMaps - {k} == old(c.atlasMaps) - {k}
  }

  /**
    NewOperatorActions: the Service action, then the Route action on
    OpenShift or the Ingress action elsewhere (a failed detection counts as
    elsewhere), then the Deployment action, and last the ConsoleLink action
    on OpenShift 4.3 and later.
  */
  method NewOperatorActions(env: Env) returns (actions: seq<ActionKind>)
    ensures |actions| == 3 || |actions| == 4
    ensures actions[0] == ServiceAction && actions[2] == DeploymentAction
    ensures actions[1] == (if env.IsOpenShift() then RouteAction else IngressAction)
    ensures RouteAction in actions <==> IngressAction !in actions
    ensures ConsoleLinkAction in actions <==> env.IsOpenShift() && IsOpenShift43Plus(env.clusterVersion)
    ensures ConsoleLinkAction in actions ==> actions[|actions| - 1] == ConsoleLinkAction
    ensures actions == [ServiceAction, if env.IsOpenShift() then RouteAction else IngressAction, DeploymentAction]
      + (if env.IsOpenShift() && IsOpenShift43Plus(env.clusterVersion) then [ConsoleLinkAction] else [])
  {
    var isOpenShift := env.openShift.Ok? && env.openShift.value;
    var consoleLinkAction: Option<ActionKind> := None;
    var routeAction: ActionKind;
    if isOpenShift {
      routeAction := RouteAction;
      if IsOpenShift43Plus(env.clusterVersion) {
        consoleLinkAction := Some(ConsoleLinkAction);
      }
    } else {
      routeAction := IngressAction;
    }
    actions := [ServiceAction, routeAction, DeploymentAction];
    if consoleLinkAction.Some? {
      actions := actions + [consoleLinkAction.value];
    }
  }

  /** The controller reference an AtlasMap puts on the children it creates. */
  function ControllerRef(cr: AtlasMap): OwnerRef
  {
    OwnerRef("AtlasMap", cr.Name())
  }

  /**
    Why SetControllerReference refuses, if it does: the AtlasMap kind is
    not registered in the scheme, or the object already has a controller
    other than this AtlasMap.
  */
  function OwnerRefusal(cr: AtlasMap, obj: Object, registered: bool): Option<Error>
  {
    if !registered then Some(NotRegistered)
    else if obj.Meta().controller.Some? && obj.Meta().controller.value != ControllerRef(cr) then Some(AlreadyOwned)
    else None
  }

  /**
    SetControllerReference refuses exactly for an unregistered kind or an
    object another controller already owns, and accepts again an object
    this AtlasMap already owns.
  */
  lemma OwnerRefusalCases(cr: AtlasMap, obj: Object, registered: bool)
    ensures OwnerRefusal(cr, obj, registered).None? <==>
      registered && (obj.Meta().controller.None? || obj.Meta().controller == Some(ControllerRef(cr)))
    ensures OwnerRefusal(cr, obj, registered) == Some(NotRegistered) <==> !registered
    ensures registered ==> OwnerRefusal(cr, Owned(cr, obj), registered).None?
  {
  }

  /** The object with the AtlasMap as its controller. */
  function Owned(cr: AtlasMap, obj: Object): (o: Object)
    ensures o.Kind() == obj.Kind() && o.Address() == obj.Address()
    ensures o.Meta() == obj.Meta().(controller := Some(ControllerRef(cr)))
  {
    obj.WithMeta(obj.Meta().(controller := Some(ControllerRef(cr))))
  }

  /**
    deployResource: sets the controller reference, then creates; a refused
    owner reference is returned and nothing is created.
  */
  method DeployResource(c: Cluster, env: Env, cr: AtlasMap, obj: Object) returns (err: Option<Error>)
    requires c.Valid()
    modifies c
    ensures c.Valid()
    ensures OwnerRefusal(cr, obj, env.ownerRegistered).Some? ==> err == OwnerRefusal(cr, obj, env.ownerRegistered)
    ensures OwnerRefusal(cr, obj, env.ownerRegistered).None? ==> err == old(c.CreateRefusal(Owned(cr, obj)))
    ensures err.Some? ==> unchanged(c)
    ensures err.None? ==> Created(c, Owned(cr, obj))
  {
    err := OwnerRefusal(cr, obj, env.ownerRegistered);
    if err.Some? {
      return;
    }
    err := c.Create(Owned(cr, obj));
  }

  /** The in-memory resource with `phase` set. */
  function WithPhase(cr: AtlasMap, phase: Phase): (r: AtlasMap)
    ensures r.meta == cr.meta && r.spec == cr.spec
    ensures r.status == cr.status.(phase := Some(phase))
  {
    cr.(status := cr.status.(phase := Some(phase)))
  }

  /**
    updatePhase: sets the phase in memory and, only when it changed, writes
    the status; a refused write is logged, not returned, and the in-memory
    phase stays set.
  */
  method UpdatePhase(c: Cluster, cr: AtlasMap, phase: Phase) returns (cr': AtlasMap)
    requires c.Valid()
    modifies c
    ensures c.Valid()
    ensures cr'.status.phase == Some(phase)
    ensures cr.status.phase == Some(phase) ==> cr' == cr && unchanged(c)
    ensures cr.status.phase != Some(phase) && old(c.AtlasMapRefusal(Verb.UpdateStatus, WithPhase(cr, phase))).Some? ==>
      cr' == WithPhase(cr, phase) && unchanged(c)
    ensures cr.status.phase != Some(phase) && old(c.AtlasMapRefusal(Verb.UpdateStatus, WithPhase(cr, phase))).None? ==>
      StatusWritten(c, WithPhase(cr, phase), cr')
  {
    cr' := cr;
    if cr.status.phase != Some(phase) {
      cr' := WithPhase(cr, phase);
      var err;
      cr', err := c.UpdateAtlasMapStatus(cr');
    }
  }
}
