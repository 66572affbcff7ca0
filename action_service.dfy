/** The Service action: creates the AtlasMap Service once and never changes it afterwards. */
module ServiceActions {
  import opened Wrappers
  import opened Errors
  import opened Meta
  import opened AtlasMapTypes
  import opened Objects
  import opened ClusterApi
  import opened ActionUtils
  import opened ActionBase

  /**
    createAtlasMapService: a ClusterIP Service named after the resource,
    selecting the pods by the same labels it carries, with one port "http".
  */
  function AtlasMapService(cr: AtlasMap): (s: Service)
    ensures s.meta.Key() == cr.Key() && s.meta.controller.None?
    ensures s.meta.labels == AtlasMapLabels(cr) && s.selector == s.meta.labels
    ensures s.serviceType == "ClusterIP"
    ensures s.ports == [ServicePort("http", PortAtlasMap)]
  {
    Service(NewMeta(cr.Name(), cr.Namespace(), AtlasMapLabels(cr)), "ClusterIP", AtlasMapLabels(cr), [ServicePort("http", PortAtlasMap)])
  }

  /** Where the resource's Service lives. */
  function ServiceRef(cr: AtlasMap): Ref
  {
    Ref(ServiceKind, cr.Key())
  }

  /**
    serviceAction.Handle: an existing Service is left alone; a missing one
    is created with the resource as its controller; any other read error is
    returned and nothing is written.
  */
  method Handle(c: Cluster, env: Env, cr: AtlasMap) returns (err: Option<Error>)
    requires Sound(c)
    modifies c
    ensures Sound(c)
    ensures old(c.Read(ServiceRef(cr))).Ok? ==> err.None? && unchanged(c)
    ensures old(c.Read(ServiceRef(cr))).Err? && old(c.Read(ServiceRef(cr))).error != NotFound ==>
      err == Some(old(c.Read(ServiceRef(cr))).error) && unchanged(c)
    ensures old(c.Read(ServiceRef(cr))) == Err(NotFound) ==>
      && err == (if env.ownerRegistered then old(c.CreateRefusal(Owned(cr, ServiceObject(AtlasMapService(cr))))) else Some(NotRegistered))
      && (err.None? ==> Created(c, Owned(cr, ServiceObject(AtlasMapService(cr)))))
    ensures err.Some? ==> unchanged(c)
    ensures WritesAt(c, ServiceRef(cr), cr.Key())
    ensures err.None? || ServiceRef(cr) in old(c.objects) ==> ServiceRef(cr) in c.objects
  {
    var got := c.Get(ServiceRef(cr));
    if got.Err? && got.error.IsNotFound() {
      err := DeployResource(c, env, cr, ServiceObject(AtlasMapService(cr)));
    } else if got.Err? {
      err := Some(got.error);
    } else {
      err := None;
    }
  }
}
