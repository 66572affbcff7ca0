/**
  The Route action (OpenShift): creates the AtlasMap Route, then keeps its
  host equal to `spec.routeHostName` and the resource's URL pointing at it.
*/
module RouteActions {
  import opened Wrappers
  import opened Errors
  import opened Meta
  import opened AtlasMapTypes
  import opened Objects
  import opened ClusterApi
  import opened ActionUtils
  import opened ActionBase

  /**
    createAtlasMapRoute: a Route named after the resource, already carrying
    it as controller, on host `spec.routeHostName`, to the resource's
    Service, with TLS terminated at the edge.
  */
  function AtlasMapRoute(cr: AtlasMap): (r: Route)
    ensures r.meta.Key() == cr.Key() && r.meta.labels == AtlasMapLabels(cr)
    ensures r.meta.controller == Some(ControllerRef(cr))
    ensures r.host == cr.spec.routeHostName
    ensures r.targetKind == "Service" && r.targetName == cr.Name()
    ensures r.tlsTermination == "edge"
  {
    var meta := NewMeta(cr.Name(), cr.Namespace(), AtlasMapLabels(cr));
    Route(meta.(controller := Some(ControllerRef(cr))), cr.spec.routeHostName, "Service", cr.Name(), "edge")
  }

  /**
    Setting the controller reference on the Route template fails only for
    an unregistered kind, and changes nothing: the template already names
    its owner.
  */
  lemma RouteTemplateOwned(cr: AtlasMap, registered: bool)
    ensures OwnerRefusal(cr, RouteObject(AtlasMapRoute(cr)), registered) == if registered then None else Some(NotRegistered)
    ensures Owned(cr, RouteObject(AtlasMapRoute(cr))) == RouteObject(AtlasMapRoute(cr))
  {
    var r := AtlasMapRoute(cr);
    assert r.meta.(controller := Some(ControllerRef(cr))) == r.meta;
  }

  function RouteRef(cr: AtlasMap): Ref
  {
    Ref(RouteKind, cr.Key())
  }

  /** The URL a Route publishes: always HTTPS, since TLS ends at the router. */
  function RouteURL(host: string): string
  {
    "https://" + host
  }

  /**
    The stored Route has the host the spec asks for, and the resource's URL
    points at the host of the stored Route.
  */
  ghost predicate RouteConverged(c: Cluster, cr: AtlasMap)
    reads c
  {
    && RouteRef(cr) in c.objects
    && c.objects[RouteRef(cr)].RouteObject?
    && c.objects[RouteRef(cr)].route.host == cr.spec.routeHostName
    && cr.status.url == RouteURL(c.objects[RouteRef(cr)].route.host)
  }

  /**
    reconcileRoute: overwrites a differing host with `spec.routeHostName`
    (an empty one too), then writes the URL into the status when it
    differs; each write only on a difference, and the first refused write
    is returned.
  */
  method ReconcileRoute(c: Cluster, cr: AtlasMap, route: Route) returns (cr': AtlasMap, err: Option<Error>)
    requires Sound(c) && Coherent(c, cr)
    requires RouteRef(cr) in c.objects && c.objects[RouteRef(cr)] == RouteObject(route)
    modifies c
    ensures Sound(c)
    ensures err.None? ==> Coherent(c, cr') && cr'.spec == cr.spec && RouteConverged(c, cr')
    ensures old(RouteConverged(c, cr)) ==> err.None? && cr' == cr && unchanged(c)
    ensures Undisturbed(c) ==> err.None?
    ensures err.None? ==> cr'.Key() == cr.Key()
    ensures RouteRef(cr) in c.objects && c.objects == old(c.objects)[RouteRef(cr) := c.objects[RouteRef(cr)]]
    ensures cr.Key() in c.atlasMaps && c.atlasMaps == old(c.atlasMaps)[cr.Key() := c.atlasMaps[cr.Key()]]
    ensures err.None? ==> (c.revision == old(c.revision)
      + (if route.host != cr.spec.routeHostName then 1 else 0)
      + (if cr.status.url != RouteURL(cr.spec.routeHostName) then 1 else 0))
    ensures err.None? ==> (c.objects[RouteRef(cr)] ==
      if route.host == cr.spec.routeHostName then RouteObject(route)
      else RouteObject(route.(host := cr.spec.routeHostName)).WithVersion(VersionString(old(c.revision) + 1)))
    ensures route.host != cr.spec.routeHostName && old(c.UpdateRefusal(RouteObject(route.(host := cr.spec.routeHostName)))).Some? ==>
      err == old(c.UpdateRefusal(RouteObject(route.(host := cr.spec.routeHostName)))) && cr' == cr && unchanged(c)
  {
    var current := route;
    if cr.spec.routeHostName != current.host {
      current := current.(host := cr.spec.routeHostName);
      var stored, e := c.Update(RouteObject(current));
      if e.Some? {
        return cr, e;
      }
      current := stored.route;
    }
    var url := "https://" + current.host;
    cr' := cr;
    err := None;
    if cr.status.url != url {
      cr' := cr.(status := cr.status.(url := url));
      cr', err := c.UpdateAtlasMapStatus(cr');
    }
  }

  /**
    routeAction.Handle: a missing Route is created, and an AlreadyExists
    answer is taken as success (a Route may still be appearing from an
    earlier pass); an existing one is reconciled; any other error is
    returned.  The pass that creates the Route leaves the URL alone.
  */
  method Handle(c: Cluster, env: Env, cr: AtlasMap) returns (cr': AtlasMap, err: Option<Error>)
    requires Sound(c) && Coherent(c, cr)
    modifies c
    ensures Sound(c)
    ensures err.None? ==> Coherent(c, cr') && cr'.spec == cr.spec
    ensures old(c.Read(RouteRef(cr))) == Err(NotFound) ==>
      && cr' == cr
      && err == (if !env.ownerRegistered then Some(NotRegistered)
                 else if old(c.CreateRefusal(RouteObject(AtlasMapRoute(cr)))) == Some(AlreadyExists) then None
                 else old(c.CreateRefusal(RouteObject(AtlasMapRoute(cr)))))
      && (env.ownerRegistered && old(c.CreateRefusal(RouteObject(AtlasMapRoute(cr)))).None? ==>
            Created(c, RouteObject(AtlasMapRoute(cr))))
      && (!env.ownerRegistered || old(c.CreateRefusal(RouteObject(AtlasMapRoute(cr)))).Some? ==> unchanged(c))
    ensures old(c.Read(RouteRef(cr))).Err? && old(c.Read(RouteRef(cr))).error != NotFound ==>
      err == Some(old(c.Read(RouteRef(cr))).error) && cr' == cr && unchanged(c)
    ensures old(c.Read(RouteRef(cr))).Ok? && err.None? ==> RouteConverged(c, cr')
    ensures old(c.Read(RouteRef(cr))).Ok? && old(RouteConverged(c, cr)) ==> err.None? && cr' == cr && unchanged(c)
    ensures old(c.Read(RouteRef(cr))).Ok? && Undisturbed(c) ==> err.None?
    ensures err.None? ==> cr'.Key() == cr.Key()
    ensures WritesAt(c, RouteRef(cr), cr.Key())
    ensures RouteRef(cr) in old(c.objects) ==> RouteRef(cr) in c.objects
  {
    RouteTemplateOwned(cr, env.ownerRegistered);
    var got := c.Get(RouteRef(cr));
    if got.Err? && got.error.IsNotFound() {
      var e := DeployResource(c, env, cr, RouteObject(AtlasMapRoute(cr)));
      if e.Some? && !e.value.IsAlreadyExists() {
        return cr, e;
      }
      return cr, None;
    } else if got.Ok? {
      cr', err := ReconcileRoute(c, cr, got.value.route);
    } else {
      return cr, Some(got.error);
    }
  }
}
