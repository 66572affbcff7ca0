/**
  The Ingress action (plain Kubernetes): creates the AtlasMap Ingress, then
  keeps the host of its single rule and the resource's URL in step.
*/
module IngressActions {
  import opened Wrappers
  import opened Errors
  import opened Meta
  import opened AtlasMapTypes
  import opened Objects
  import opened ClusterApi
  import opened Util
  import opened ActionUtils
  import opened ActionBase

  /**
    createIngress: an Ingress named after the resource whose default backend
    is the resource's Service on port 8585, with one rule for the host
    GetIngressHostNameFor chooses.
  */
  function AtlasMapIngress(cr: AtlasMap): (i: Ingress)
    ensures i.meta.Key() == cr.Key() && i.meta.labels == AtlasMapLabels(cr) && i.meta.controller.None?
    ensures i.defaultBackend == IngressBackend(cr.Name(), "port", PortAtlasMap)
    ensures i.ruleHosts == [GetIngressHostNameFor(cr)]
  {
    Ingress(NewMeta(cr.Name(), cr.Namespace(), AtlasMapLabels(cr)),
      IngressBackend(cr.Name(), "port", PortAtlasMap), [GetIngressHostNameFor(cr)])
  }

  function IngressRef(cr: AtlasMap): Ref
  {
    Ref(IngressKind, cr.Key())
  }

  /** The URL an Ingress publishes: plain HTTP. */
  function IngressURL(host: string): string
  {
    "http://" + host
  }

  /**
    The stored Ingress is one the action leaves alone (its rule count is not
    one), or its single rule has the chosen host and the URL points at it.
  */
  ghost predicate IngressConverged(c: Cluster, cr: AtlasMap)
    reads c
  {
    && IngressRef(cr) in c.objects
    && c.objects[IngressRef(cr)].IngressObject?
    && (|c.objects[IngressRef(cr)].ingress.ruleHosts| == 1 ==>
          && c.objects[IngressRef(cr)].ingress.ruleHosts[0] == GetIngressHostNameFor(cr)
          && cr.status.url == IngressURL(GetIngressHostNameFor(cr)))
  }

  /**
    reconcileIngress: only an Ingress with exactly one rule is reconciled;
    its host is set to GetIngressHostNameFor when it differs, then the URL
    is written into the status when it differs; the first refused write is
    returned.
  */
  method ReconcileIngress(c: Cluster, cr: AtlasMap, ingress: Ingress) returns (cr': AtlasMap, err: Option<Error>)
    requires Sound(c) && Coherent(c, cr)
    requires IngressRef(cr) in c.objects && c.objects[IngressRef(cr)] == IngressObject(ingress)
    modifies c
    ensures Sound(c)
    ensures |ingress.ruleHosts| != 1 ==> err.None? && cr' == cr && unchanged(c)
    ensures err.None? ==> Coherent(c, cr') && cr'.spec == cr.spec && IngressConverged(c, cr')
    ensures old(IngressConverged(c, cr)) ==> err.None? && cr' == cr && unchanged(c)
    ensures Undisturbed(c) ==> err.None?
    ensures err.None? ==> cr'.Key() == cr.Key()
    ensures IngressRef(cr) in c.objects && c.objects == old(c.objects)[IngressRef(cr) := c.objects[IngressRef(cr)]]
    ensures cr.Key() in c.atlasMaps && c.atlasMaps == old(c.atlasMaps)[cr.Key() := c.atlasMaps[cr.Key()]]
    ensures err.None? && |ingress.ruleHosts| == 1 ==> (c.revision == old(c.revision)
      + (if ingress.ruleHosts[0] != GetIngressHostNameFor(cr) then 1 else 0)
      + (if cr.status.url != IngressURL(GetIngressHostNameFor(cr)) then 1 else 0))
    ensures err.None? && |ingress.ruleHosts| == 1 ==> (c.objects[IngressRef(cr)] ==
      if ingress.ruleHosts[0] == GetIngressHostNameFor(cr) then IngressObject(ingress)
      else IngressObject(ingress.(ruleHosts := [GetIngressHostNameFor(cr)])).WithVersion(VersionString(old(c.revision) + 1)))
    ensures (&& |ingress.ruleHosts| == 1 && ingress.ruleHosts[0] != GetIngressHostNameFor(cr)
             && old(c.UpdateRefusal(IngressObject(ingress.(ruleHosts := [GetIngressHostNameFor(cr)])))).Some?) ==>
      err == old(c.UpdateRefusal(IngressObject(ingress.(ruleHosts := [GetIngressHostNameFor(cr)])))) && cr' == cr && unchanged(c)
  {
    cr' := cr;
    err := None;
    if |ingress.ruleHosts| == 1 {
      var current := ingress;
      var host := GetIngressHostNameFor(cr);
      if host != current.ruleHosts[0] {
        current := current.(ruleHosts := [host]);
        var stored, e := c.Update(IngressObject(current));
        if e.Some? {
          return cr, e;
        }
        current := stored.ingress;
      }
      var url := "http://" + current.ruleHosts[0];
      if cr.status.url != url {
        cr' := cr.(status := cr.status.(url := url));
        cr', err := c.UpdateAtlasMapStatus(cr');
      }
    }
  }

  /**
    ingressAction.Handle: a missing Ingress is created, and every create
    error is returned, AlreadyExists included; an existing one is
    reconciled; any other read error is returned.
  */
  method Handle(c: Cluster, env: Env, cr: AtlasMap) returns (cr': AtlasMap, err: Option<Error>)
    requires Sound(c) && Coherent(c, cr)
    modifies c
    ensures Sound(c)
    ensures err.None? ==> Coherent(c, cr') && cr'.spec == cr.spec
    ensures old(c.Read(IngressRef(cr))) == Err(NotFound) ==>
      && cr' == cr
      && err == (if env.ownerRegistered then old(c.CreateRefusal(Owned(cr, IngressObject(AtlasMapIngress(cr))))) else Some(NotRegistered))
      && (err.None? ==> Created(c, Owned(cr, IngressObject(AtlasMapIngress(cr)))))
    ensures old(c.Read(IngressRef(cr))).Err? && old(c.Read(IngressRef(cr))).error != NotFound ==>
      err == Some(old(c.Read(IngressRef(cr))).error) && cr' == cr && unchanged(c)
    ensures old(c.Read(IngressRef(cr))).Ok? && err.None? ==> IngressConverged(c, cr')
    ensures old(c.Read(IngressRef(cr))).Ok? && old(IngressConverged(c, cr)) ==> err.None? && cr' == cr && unchanged(c)
    ensures err.Some? ==> unchanged(c) || old(c.Read(IngressRef(cr))).Ok?
    ensures old(c.Read(IngressRef(cr))).Ok? && Undisturbed(c) ==> err.None?
    ensures err.None? ==> cr'.Key() == cr.Key()
    ensures WritesAt(c, IngressRef(cr), cr.Key())
    ensures err.None? || IngressRef(cr) in old(c.objects) ==> IngressRef(cr) in c.objects
  {
    var got := c.Get(IngressRef(cr));
    if got.Err? && got.error.IsNotFound() {
      err := DeployResource(c, env, cr, IngressObject(AtlasMapIngress(cr)));
      return cr, err;
    } else if got.Ok? {
      cr', err := ReconcileIngress(c, cr, got.value.ingress);
    } else {
      return cr, Some(got.error);
    }
  }
}
