/**
  The ConsoleLink action (OpenShift 4.3 and later): a cluster-scoped link on
  the dashboard of the resource's namespace, pointing at its Route.
*/
module ConsoleLinkActions {
  import opened Wrappers
  import opened Errors
  import opened Meta
  import opened AtlasMapTypes
  import opened Objects
  import opened ClusterApi
  import opened Util
  import opened ActionUtils
  import opened ActionBase
  import opened RouteActions

  /** The console location that shows a link on namespace dashboards. */
  const NamespaceDashboard: string := "NamespaceDashboard"

  /** What the Route lookup hands on when there is no Route: an empty one. */
  function EmptyRoute(): (r: Route)
    ensures r.host == ""
  {
    Route(NewMeta("", "", map[]), "", "", "", "")
  }

  /** Where the link lives: cluster-scoped, so under the empty namespace. */
  function LinkRef(cr: AtlasMap): Ref
  {
    Ref(ConsoleLinkKind, NamespacedName("", ConsoleLinkName(cr)))
  }

  /**
    createNamespaceDashboardLink: a link named `name`, labelled like the
    other children but without an owner, whose text is ConsoleLinkText and
    whose target is the Route's HTTPS URL, shown on the dashboard of the
    resource's namespace alone.
  */
  function DashboardLink(name: string, route: Route, cr: AtlasMap): (l: ConsoleLink)
    ensures l.meta.Key() == NamespacedName("", name) && l.meta.labels == AtlasMapLabels(cr) && l.meta.controller.None?
    ensures l.text == ConsoleLinkText(cr) && l.href == RouteURL(route.host)
    ensures l.location == NamespaceDashboard && l.namespaces == [cr.Namespace()]
  {
    ConsoleLink(NewMeta(name, "", AtlasMapLabels(cr)), ConsoleLinkText(cr), "https://" + route.host,
      NamespaceDashboard, [cr.Namespace()])
  }

  /** The link's target or text differs from what it should be. */
  predicate LinkDue(link: ConsoleLink, route: Route, cr: AtlasMap)
  {
    link.href != RouteURL(route.host) || link.text != ConsoleLinkText(cr)
  }

  /** The link with the text and target it should have. */
  function Relinked(link: ConsoleLink, route: Route, cr: AtlasMap): (l: ConsoleLink)
    ensures l.meta == link.meta && l.location == link.location && l.namespaces == link.namespaces
    ensures l.href == RouteURL(route.host) && l.text == ConsoleLinkText(cr)
  {
    link.(href := "https://" + route.host, text := ConsoleLinkText(cr))
  }

  /** The Route the lookup hands on: the stored one, or an empty one when there is none. */
  ghost function LookedUpRoute(c: Cluster, cr: AtlasMap): Route
    reads c
  {
    if c.Read(RouteRef(cr)).Ok? && c.Read(RouteRef(cr)).value.RouteObject? then c.Read(RouteRef(cr)).value.route else EmptyRoute()
  }

  /** The Route lookup succeeds: it finds the Route, or finds that there is none. */
  ghost predicate RouteFound(c: Cluster, cr: AtlasMap)
    reads c
  {
    c.Read(RouteRef(cr)).Ok? || c.Read(RouteRef(cr)) == Err(NotFound)
  }

  /** The stored link has the target and text it should have. */
  ghost predicate LinkConverged(c: Cluster, cr: AtlasMap, host: string)
    reads c
  {
    && LinkRef(cr) in c.objects
    && c.objects[LinkRef(cr)].ConsoleLinkObject?
    && c.objects[LinkRef(cr)].link.href == RouteURL(host)
    && c.objects[LinkRef(cr)].link.text == ConsoleLinkText(cr)
  }

  /**
    getAtlasMapRoute: the stored Route; a missing Route is an empty one and
    not an error; any other read error is returned.
  */
  method GetAtlasMapRoute(c: Cluster, cr: AtlasMap) returns (r: Result<Route, Error>)
    requires c.Valid()
    ensures c.Read(RouteRef(cr)) == Err(NotFound) ==> r == Ok(EmptyRoute())
    ensures c.Read(RouteRef(cr)).Err? && c.Read(RouteRef(cr)).error != NotFound ==> r == Err(c.Read(RouteRef(cr)).error)
    ensures c.Read(RouteRef(cr)).Ok? ==> r.Ok? && RouteObject(r.value) == c.Read(RouteRef(cr)).value
    ensures r.Ok? ==> r.value == LookedUpRoute(c, cr)
  {
    var got := c.Get(RouteRef(cr));
    if got.Err? && got.error.IsNotFound() {
      return Ok(EmptyRoute());
    } else if got.Err? {
      return Err(got.error);
    }
    return Ok(got.value.route);
  }

  /**
    reconcileConsoleLink: sets the target and the text where they differ and
    issues one update when either did, none otherwise.
  */
  method ReconcileConsoleLink(c: Cluster, cr: AtlasMap, route: Route, link: ConsoleLink) returns (err: Option<Error>)
    requires Sound(c)
    requires link.meta.Key() == LinkRef(cr).key
    modifies c
    ensures Sound(c)
    ensures link.href == RouteURL(route.host) && link.text == ConsoleLinkText(cr) ==> err.None? && unchanged(c)
    ensures link.href != RouteURL(route.host) || link.text != ConsoleLinkText(cr) ==>
      && err == old(c.UpdateRefusal(ConsoleLinkObject(Relinked(link, route, cr))))
      && (err.Some? ==> unchanged(c))
      && (err.None? ==> Updated(c, ConsoleLinkObject(Relinked(link, route, cr)), ConsoleLinkObject(Relinked(link, route, cr)).WithVersion(VersionString(c.revision))))
  {
    var updateConsoleLink := false;
    var current := link;
    var url := "https://" + route.host;
    if current.href != url {
      current := current.(href := url);
      updateConsoleLink := true;
    }
    var linkText := ConsoleLinkText(cr);
    if current.text != linkText {
      current := current.(text := linkText);
      updateConsoleLink := true;
    }
    err := None;
    if updateConsoleLink {
      assert current == Relinked(link, route, cr);
      var stored;
      stored, err := c.Update(ConsoleLinkObject(current));
    }
  }

  /**
    An existing link: deleted first when the resource is being deleted (a
    refused delete is only logged), then reconciled in any case.  After a
    delete, a link that needed changes makes the update fail with NotFound.
  */
  method RefreshLink(c: Cluster, cr: AtlasMap, route: Route, link: ConsoleLink) returns (err: Option<Error>)
    requires Sound(c)
    requires LinkRef(cr) in c.objects && c.objects[LinkRef(cr)] == ConsoleLinkObject(link)
    modifies c
    ensures Sound(c)
    ensures c.atlasMaps == old(c.atlasMaps)
    ensures LinkRef(cr) in c.objects ==> c.objects == old(c.objects)[LinkRef(cr) := c.objects[LinkRef(cr)]]
    ensures LinkRef(cr) !in c.objects ==> c.objects == old(c.objects) - {LinkRef(cr)}
    ensures !cr.meta.deleting && err.None? ==> LinkConverged(c, cr, route.host)
    ensures !cr.meta.deleting && old(LinkConverged(c, cr, route.host)) ==> err.None? && unchanged(c)
    ensures cr.meta.deleting && old(c.DeleteRefusal(LinkRef(cr))).None? ==>
      LinkRef(cr) !in c.objects && (err.None? <==> old(LinkConverged(c, cr, route.host)))
    ensures !cr.meta.deleting || old(c.DeleteRefusal(LinkRef(cr))).Some? ==>
      err == (if LinkDue(link, route, cr) then old(c.UpdateRefusal(ConsoleLinkObject(Relinked(link, route, cr)))) else None)
  {
    if cr.meta.deleting {
      err := DeleteAndReconcile(c, cr, route, link);
    } else {
      err := ReconcileConsoleLink(c, cr, route, link);
    }
  }

  /**
    The deleting case of an existing link: a delete whose refusal is only
    logged, then the reconciliation of the link as it was read.
  */
  method DeleteAndReconcile(c: Cluster, cr: AtlasMap, route: Route, link: ConsoleLink) returns (err: Option<Error>)
    requires Sound(c)
    requires LinkRef(cr) in c.objects && c.objects[LinkRef(cr)] == ConsoleLinkObject(link)
    modifies c
    ensures Sound(c)
    ensures c.atlasMaps == old(c.atlasMaps)
    ensures LinkRef(cr) in c.objects ==> c.objects == old(c.objects)[LinkRef(cr) := c.objects[LinkRef(cr)]]
    ensures LinkRef(cr) !in c.objects ==> c.objects == old(c.objects) - {LinkRef(cr)}
    ensures old(c.DeleteRefusal(LinkRef(cr))).None? ==>
      LinkRef(cr) !in c.objects && (err.None? <==> old(LinkConverged(c, cr, route.host)))
    ensures old(c.DeleteRefusal(LinkRef(cr))).Some? ==>
      err == (if LinkDue(link, route, cr) then old(c.UpdateRefusal(ConsoleLinkObject(Relinked(link, route, cr)))) else None)
  {
    var e := c.Delete(LinkRef(cr));
    err := ReconcileConsoleLink(c, cr, route, link);
  }

  /** A create of a child that is no Deployment, framed to the child's address. */
  method CreateChild(c: Cluster, obj: Object) returns (err: Option<Error>)
    requires Sound(c) && !obj.DeploymentObject?
    modifies c
    ensures Sound(c)
    ensures c.atlasMaps == old(c.atlasMaps)
    ensures obj.Address() in c.objects ==> c.objects == old(c.objects)[obj.Address() := c.objects[obj.Address()]]
    ensures obj.Address() !in c.objects ==> c.objects == old(c.objects) - {obj.Address()}
    ensures err == old(c.CreateRefusal(obj))
    ensures err.None? ==> Created(c, obj)
    ensures err.Some? ==> unchanged(c)
  {
    err := c.Create(obj);
    if err.None? {
      assert c.objects[obj.Address()] == obj.WithVersion(VersionString(c.revision));
    } else if obj.Address() in c.objects {
      RewriteSame(c.objects, obj.Address());
    } else {
      RemoveAbsent(c.objects, obj.Address());
    }
  }

  /** A missing link: created for the Route's host. */
  method CreateLink(c: Cluster, cr: AtlasMap, route: Route) returns (err: Option<Error>)
    requires Sound(c)
    modifies c
    ensures Sound(c)
    ensures c.atlasMaps == old(c.atlasMaps)
    ensures LinkRef(cr) in c.objects ==> c.objects == old(c.objects)[LinkRef(cr) := c.objects[LinkRef(cr)]]
    ensures LinkRef(cr) !in c.objects ==> c.objects == old(c.objects) - {LinkRef(cr)}
    ensures err == old(c.CreateRefusal(ConsoleLinkObject(DashboardLink(ConsoleLinkName(cr), route, cr))))
    ensures err.None? ==> Created(c, ConsoleLinkObject(DashboardLink(ConsoleLinkName(cr), route, cr)))
    ensures err.Some? ==> unchanged(c)
  {
    var link := ConsoleLinkObject(DashboardLink(ConsoleLinkName(cr), route, cr));
    assert link.Address() == LinkRef(cr);
    err := CreateChild(c, link);
  }

  /**
    The part of consoleLinkAction.Handle after the platform and the Route
    are known: a missing link is created for the Route's host; an existing
    one is refreshed; a read error on the link other than NotFound is
    dropped, and the action succeeds.
  */
  method SyncLink(c: Cluster, cr: AtlasMap, route: Route) returns (err: Option<Error>)
    requires Sound(c)
    modifies c
    ensures Sound(c)
    ensures c.atlasMaps == old(c.atlasMaps)
    ensures LinkRef(cr) in c.objects ==> c.objects == old(c.objects)[LinkRef(cr) := c.objects[LinkRef(cr)]]
    ensures LinkRef(cr) !in c.objects ==> c.objects == old(c.objects) - {LinkRef(cr)}
    ensures old(c.Read(LinkRef(cr))) == Err(NotFound) ==>
      && err == old(c.CreateRefusal(ConsoleLinkObject(DashboardLink(ConsoleLinkName(cr), route, cr))))
      && (err.None? ==> Created(c, ConsoleLinkObject(DashboardLink(ConsoleLinkName(cr), route, cr))))
      && (err.Some? ==> unchanged(c))
    ensures old(c.Read(LinkRef(cr))).Err? && old(c.Read(LinkRef(cr))).error != NotFound ==> err.None? && unchanged(c)
    ensures old(c.Read(LinkRef(cr))).Ok? && !cr.meta.deleting && err.None? ==> LinkConverged(c, cr, route.host)
    ensures old(c.Read(LinkRef(cr))).Ok? && old(LinkConverged(c, cr, route.host)) && !cr.meta.deleting ==> err.None? && unchanged(c)
    ensures old(c.Read(LinkRef(cr))).Ok? && cr.meta.deleting && old(c.DeleteRefusal(LinkRef(cr))).None? ==>
      LinkRef(cr) !in c.objects && (err.None? <==> old(LinkConverged(c, cr, route.host)))
    ensures old(c.Read(LinkRef(cr))).Ok? && (!cr.meta.deleting || old(c.DeleteRefusal(LinkRef(cr))).Some?) ==>
      var link := old(c.Read(LinkRef(cr))).value.link;
      err == (if LinkDue(link, route, cr) then old(c.UpdateRefusal(ConsoleLinkObject(Relinked(link, route, cr)))) else None)
  {
    var consoleLinkName := ConsoleLinkName(cr);
    var got := c.Get(LinkRef(cr));
    if got.Err? && got.error.IsNotFound() {
      err := CreateLink(c, cr, route);
    } else if got.Ok? {
      err := RefreshLink(c, cr, route, got.value.link);
    } else {
      err := None;
    }
  }

  /**
    consoleLinkAction.Handle: a failed platform detection is returned; off
    OpenShift nothing happens; on OpenShift a failed Route lookup is
    returned, and otherwise the link is brought in line with the Route the
    lookup found, as SyncLink states.
  */
  method Handle(c: Cluster, env: Env, cr: AtlasMap) returns (err: Option<Error>)
    requires Sound(c)
    modifies c
    ensures Sound(c)
    ensures c.atlasMaps == old(c.atlasMaps)
    ensures LinkRef(cr) in c.objects ==> c.objects == old(c.objects)[LinkRef(cr) := c.objects[LinkRef(cr)]]
    ensures LinkRef(cr) !in c.objects ==> c.objects == old(c.objects) - {LinkRef(cr)}
    ensures env.openShift.Err? ==> err == Some(env.openShift.error) && unchanged(c)
    ensures env.openShift == Ok(false) ==> err.None? && unchanged(c)
    ensures env.IsOpenShift() && !old(RouteFound(c, cr)) ==>
      err == Some(old(c.Read(RouteRef(cr))).error) && unchanged(c)
    ensures env.IsOpenShift() && old(RouteFound(c, cr)) && old(c.Read(LinkRef(cr))) == Err(NotFound) ==>
      && err == old(c.CreateRefusal(ConsoleLinkObject(DashboardLink(ConsoleLinkName(cr), LookedUpRoute(c, cr), cr))))
      && (err.None? ==> Created(c, ConsoleLinkObject(DashboardLink(ConsoleLinkName(cr), old(LookedUpRoute(c, cr)), cr))))
      && (err.Some? ==> unchanged(c))
    ensures env.IsOpenShift() && old(RouteFound(c, cr)) && old(c.Read(LinkRef(cr))).Err? && old(c.Read(LinkRef(cr))).error != NotFound ==>
      err.None? && unchanged(c)
    ensures env.IsOpenShift() && old(RouteFound(c, cr)) && old(c.Read(LinkRef(cr))).Ok? && !cr.meta.deleting && err.None? ==>
      LinkConverged(c, cr, old(LookedUpRoute(c, cr)).host)
    ensures env.IsOpenShift() && old(RouteFound(c, cr)) && old(c.Read(LinkRef(cr))).Ok? && !cr.meta.deleting && old(LinkConverged(c, cr, LookedUpRoute(c, cr).host)) ==>
      err.None? && unchanged(c)
    ensures env.IsOpenShift() && old(RouteFound(c, cr)) && old(c.Read(LinkRef(cr))).Ok? && cr.meta.deleting && old(c.DeleteRefusal(LinkRef(cr))).None? ==>
      LinkRef(cr) !in c.objects && (err.None? <==> old(LinkConverged(c, cr, LookedUpRoute(c, cr).host)))
    ensures env.IsOpenShift() && old(RouteFound(c, cr)) && old(c.Read(LinkRef(cr))).Ok? && (!cr.meta.deleting || old(c.DeleteRefusal(LinkRef(cr))).Some?) ==>
      var link, route := old(c.Read(LinkRef(cr))).value.link, old(LookedUpRoute(c, cr));
      err == (if LinkDue(link, route, cr) then old(c.UpdateRefusal(ConsoleLinkObject(Relinked(link, route, cr)))) else None)
  {
    if env.openShift.Err? {
      return Some(env.openShift.error);
    }
    var isOpenShift := env.openShift.value;
    if !isOpenShift {
      return None;
    }
    var route := GetAtlasMapRoute(c, cr);
    if route.Err? {
      return Some(route.error);
    }
    err := SyncLink(c, cr, route.value);
  }

  /**
    RemoveConsoleLink: deletes the resource's link; a missing link is
    success, and any other read or delete error is returned.
  */
  method RemoveConsoleLink(c: Cluster, cr: AtlasMap) returns (err: Option<Error>)
    requires Sound(c)
    modifies c
    ensures Sound(c)
    ensures old(c.Read(LinkRef(cr))) == Err(NotFound) ==> err.None? && unchanged(c)
    ensures old(c.Read(LinkRef(cr))).Err? && old(c.Read(LinkRef(cr))).error != NotFound ==>
      err == Some(old(c.Read(LinkRef(cr))).error) && unchanged(c)
    ensures old(c.Read(LinkRef(cr))).Ok? ==>
      && err == old(c.DeleteRefusal(LinkRef(cr)))
      && (err.None? ==> Deleted(c, LinkRef(cr)))
      && (err.Some? ==> unchanged(c))
  {
    var got := c.Get(LinkRef(cr));
    if got.Err? {
      if !got.error.IsNotFound() {
        return Some(got.error);
      }
    } else {
      err := c.Delete(LinkRef(cr));
      if err.Some? {
        return err;
      }
    }
    return None;
  }
}
