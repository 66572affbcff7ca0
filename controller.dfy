/**
  The AtlasMap reconciler: it fetches the resource a request names and runs
  the actions in order on it, stopping at the first error.  A conflict asks
  for the request to be queued again without an error; any other error is
  returned.  A resource that is gone leaves only the cluster-scoped console
  link to clean up, which garbage collection does not reach.
*/
module Controller {
  import opened Wrappers
  import opened Errors
  import opened Meta
  import opened AtlasMapTypes
  import opened Objects
  import opened ClusterApi
  import opened Util
  import opened ActionBase
  import ServiceActions
  import RouteActions
  import IngressActions
  import DeploymentActions
  import ConsoleLinkActions

  /** What Reconcile hands back to the controller runtime: the Result's Requeue flag and the error. */
  datatype Outcome = Outcome(requeue: bool, err: Option<Error>)

  /**
    The outcome of an action's error: none is success, a conflict is a
    requeue without an error, and any other error is returned as it is.
  */
  function ActionOutcome(err: Option<Error>): (o: Outcome)
    ensures o.requeue <==> err == Some(Conflict)
    ensures o.err.Some? <==> err.Some? && err != Some(Conflict)
    ensures o.err.Some? ==> o.err == err
  {
    if err.None? then Outcome(false, None)
    else if err.value.IsConflict() then Outcome(true, None)
    else Outcome(false, err)
  }

  /** Where an action's child lives; the console link is cluster-scoped. */
  function ChildRef(a: ActionKind, cr: AtlasMap): Ref
  {
    if a == ConsoleLinkAction then ConsoleLinkActions.LinkRef(cr) else Ref(a.ChildKind(), cr.Key())
  }

  /**
    The actions whose success means their child is stored.  The Route
    action also takes an AlreadyExists answer to its create as success, and
    the ConsoleLink action may delete its link or do nothing at all.
  */
  predicate LeavesChild(a: ActionKind)
  {
    a == ServiceAction || a == IngressAction || a == DeploymentAction
  }

  /**
    The child of `a` is as the action brings an existing child: the Service
    exists; the Route, the Ingress and the Deployment are in line with the
    resource; on OpenShift, for a resource not being deleted whose Route
    lookup succeeds, the console link points at the Route.
  */
  ghost predicate Converged(c: Cluster, env: Env, a: ActionKind, cr: AtlasMap)
    reads c
  {
    match a
    case ServiceAction => ChildRef(a, cr) in c.objects
    case RouteAction => RouteActions.RouteConverged(c, cr)
    case IngressAction => IngressActions.IngressConverged(c, cr)
    case DeploymentAction => DeploymentActions.DeploymentConverged(c, cr, env.parse)
    case ConsoleLinkAction =>
      env.IsOpenShift() && ConsoleLinkActions.RouteFound(c, cr) && !cr.meta.deleting ==>
        ConsoleLinkActions.LinkConverged(c, cr, ConsoleLinkActions.LookedUpRoute(c, cr).host)
  }

  /**
    Nothing is left for `a` to do: its child is read and converged, and the
    other reads it makes succeed (the Deployment action's re-read of the
    resource; the ConsoleLink action's platform detection and Route lookup),
    and the resource is not being deleted when the console link is kept.
  */
  ghost predicate Settled(c: Cluster, env: Env, a: ActionKind, cr: AtlasMap)
    reads c
  {
    && c.Read(ChildRef(a, cr)).Ok?
    && Converged(c, env, a, cr)
    && (a == DeploymentAction ==> c.ReadAtlasMap(cr.Key()).Ok?)
    && (a == ConsoleLinkAction ==>
         env.openShift.Ok? && (env.IsOpenShift() ==> ConsoleLinkActions.RouteFound(c, cr) && !cr.meta.deleting))
  }

  /** Nothing is left for any of the actions to do. */
  ghost predicate AllSettled(c: Cluster, env: Env, actions: seq<ActionKind>, cr: AtlasMap)
    reads c
  {
    forall k | 0 <= k < |actions| :: Settled(c, env, actions[k], cr)
  }

  /** The children the actions own. */
  ghost function Children(actions: seq<ActionKind>, cr: AtlasMap): set<Ref>
  {
    set k | 0 <= k < |actions| :: ChildRef(actions[k], cr)
  }

  lemma ChildrenGrow(actions: seq<ActionKind>, i: nat, cr: AtlasMap)
    requires i < |actions|
    ensures Children(actions[..i + 1], cr) == Children(actions[..i], cr) + {ChildRef(actions[i], cr)}
  {
    var prefix := actions[..i + 1];
    assert prefix[i] == actions[i];
    assert forall k | 0 <= k < i :: prefix[k] == actions[..i][k];
  }

  /**
    A step that writes at most the child of `actions[i]`, and removes it
    only if it is the console link, keeps the children of the earlier
    actions stored.
  */
  lemma StillStored(objects0: map<Ref, Object>, objects1: map<Ref, Object>, actions: seq<ActionKind>, i: nat, cr: AtlasMap)
    requires i < |actions|
    requires forall k | 0 <= k < i && LeavesChild(actions[k]) :: ChildRef(actions[k], cr) in objects0
    requires objects1 - {ChildRef(actions[i], cr)} == objects0 - {ChildRef(actions[i], cr)}
    requires actions[i] != ConsoleLinkAction && ChildRef(actions[i], cr) in objects0 ==> ChildRef(actions[i], cr) in objects1
    ensures forall k | 0 <= k < i && LeavesChild(actions[k]) :: ChildRef(actions[k], cr) in objects1
  {
    forall k | 0 <= k < i && LeavesChild(actions[k])
      ensures ChildRef(actions[k], cr) in objects1
    {
      var r := ChildRef(actions[k], cr);
      if r != ChildRef(actions[i], cr) {
        assert r in objects0 - {ChildRef(actions[i], cr)};
      }
    }
  }

  /**
    What running the action `a` on `cr` did, handing on `cr'` and `err`:
    the store stays sound; a success hands on a resource coherent with the
    store under the same key; at most the action's own child and the
    resource were written; no child but the console link was removed; a
    success leaves the child stored for the actions that always do, and
    converges a child the action found; and nothing is written when
    nothing is left to do.
  */
  twostate predicate Ran(c: Cluster, env: Env, a: ActionKind, cr: AtlasMap, new cr': AtlasMap, new err: Option<Error>)
    reads c
  {
    && Sound(c)
    && (err.None? ==> Coherent(c, cr') && cr'.Key() == cr.Key())
    && WritesAt(c, ChildRef(a, cr), cr.Key())
    && (a != ConsoleLinkAction && ChildRef(a, cr) in old(c.objects) ==> ChildRef(a, cr) in c.objects)
    && (err.None? && LeavesChild(a) ==> ChildRef(a, cr) in c.objects)
    && (err.None? && old(c.Read(ChildRef(a, cr))).Ok? ==> Converged(c, env, a, cr'))
    && (old(Settled(c, env, a, cr)) ==> err.None? && cr' == cr && unchanged(c))
  }

  method RunService(c: Cluster, env: Env, cr: AtlasMap) returns (cr': AtlasMap, err: Option<Error>)
    requires Sound(c) && Coherent(c, cr)
    modifies c
    ensures Ran(c, env, ServiceAction, cr, cr', err)
  {
    cr' := cr;
    err := ServiceActions.Handle(c, env, cr);
  }

  method RunRoute(c: Cluster, env: Env, cr: AtlasMap) returns (cr': AtlasMap, err: Option<Error>)
    requires Sound(c) && Coherent(c, cr)
    modifies c
    ensures Ran(c, env, RouteAction, cr, cr', err)
  {
    cr', err := RouteActions.Handle(c, env, cr);
  }

  method RunIngress(c: Cluster, env: Env, cr: AtlasMap) returns (cr': AtlasMap, err: Option<Error>)
    requires Sound(c) && Coherent(c, cr)
    modifies c
    ensures Ran(c, env, IngressAction, cr, cr', err)
  {
    cr', err := IngressActions.Handle(c, env, cr);
  }

  method RunDeployment(c: Cluster, env: Env, cr: AtlasMap) returns (cr': AtlasMap, err: Option<Error>)
    requires Sound(c) && Coherent(c, cr) && env.Valid()
    modifies c
    ensures Ran(c, env, DeploymentAction, cr, cr', err)
  {
    cr', err := DeploymentActions.Handle(c, env, cr);
  }

  method RunConsoleLink(c: Cluster, env: Env, cr: AtlasMap) returns (cr': AtlasMap, err: Option<Error>)
    requires Sound(c) && Coherent(c, cr)
    modifies c
    ensures Ran(c, env, ConsoleLinkAction, cr, cr', err)
  {
    ghost var objects0 := c.objects;
    cr' := cr;
    err := ConsoleLinkActions.Handle(c, env, cr);
    OnlyAtRest(objects0, c.objects, ConsoleLinkActions.LinkRef(cr));
    SameElsewhere(objects0, c.objects, ConsoleLinkActions.LinkRef(cr), RouteActions.RouteRef(cr));
    assert c.Read(RouteActions.RouteRef(cr)) == old(c.Read(RouteActions.RouteRef(cr)));
  }

  /**
    Action.Handle, dispatched on the kind of action.  The resource the next
    action sees is the one this action handed on.
  */
  method Run(c: Cluster, env: Env, a: ActionKind, cr: AtlasMap) returns (cr': AtlasMap, err: Option<Error>)
    requires Sound(c) && Coherent(c, cr) && env.Valid()
    modifies c
    ensures Ran(c, env, a, cr, cr', err)
  {
    match a
    case ServiceAction =>
      cr', err := RunService(c, env, cr);
    case RouteAction =>
      cr', err := RunRoute(c, env, cr);
    case IngressAction =>
      cr', err := RunIngress(c, env, cr);
    case DeploymentAction =>
      cr', err := RunDeployment(c, env, cr);
    case ConsoleLinkAction =>
      cr', err := RunConsoleLink(c, env, cr);
  }

  /**
    The resource Reconcile hands to the link cleanup when the named one is
    gone: only the request's name and namespace are set.
  */
  function Placeholder(request: Key): (cr: AtlasMap)
    ensures cr.Key() == request
  {
    AtlasMap(NewMeta(request.name, request.namespace, map[]),
      AtlasMapSpec(0, "", "", "", "", "", ""), AtlasMapStatus("", "", None))
  }

  /**
    The actions run in order on the fetched resource; the first that fails
    ends the loop, and `ran` counts the actions that succeeded before it.
    The children of the actions that succeeded and leave a child are
    stored; only the children of the actions that ran, the failing one
    included, and the resource itself were written; and when nothing is
    left for any action to do, all of them succeed and nothing is written.
  */
  method RunActions(c: Cluster, env: Env, actions: seq<ActionKind>, cr: AtlasMap) returns (err: Option<Error>, ghost ran: nat)
    requires Sound(c) && Coherent(c, cr) && env.Valid()
    modifies c
    ensures Sound(c)
    ensures ran <= |actions|
    ensures err.None? <==> ran == |actions|
    ensures forall k | 0 <= k < ran && LeavesChild(actions[k]) :: ChildRef(actions[k], cr) in c.objects
    ensures var written := Children(actions[..if err.Some? then ran + 1 else ran], cr);
      c.objects - written == old(c.objects) - written
    ensures c.atlasMaps - {cr.Key()} == old(c.atlasMaps) - {cr.Key()}
    ensures old(AllSettled(c, env, actions, cr)) ==> err.None? && unchanged(c)
  {
    var current := cr;
    var i := 0;
    while i < |actions|
      invariant 0 <= i <= |actions|
      invariant Sound(c) && Coherent(c, current) && current.Key() == cr.Key()
      invariant forall k | 0 <= k < i && LeavesChild(actions[k]) :: ChildRef(actions[k], cr) in c.objects
      invariant c.objects - Children(actions[..i], cr) == old(c.objects) - Children(actions[..i], cr)
      invariant c.atlasMaps - {cr.Key()} == old(c.atlasMaps) - {cr.Key()}
      invariant old(AllSettled(c, env, actions, cr)) ==> current == cr && unchanged(c)
    {
      ghost var objects0 := c.objects;
      assert ChildRef(actions[i], current) == ChildRef(actions[i], cr);
      if old(AllSettled(c, env, actions, cr)) {
        assert Settled(c, env, actions[i], current);
      }
      current, err := Run(c, env, actions[i], current);
      ChildrenGrow(actions, i, cr);
      WidenFrame(old(c.objects), objects0, c.objects, Children(actions[..i], cr), ChildRef(actions[i], cr));
      StillStored(objects0, c.objects, actions, i, cr);
      if err.Some? {
        return err, i;
      }
      i := i + 1;
    }
    assert actions[..i] == actions;
    return None, |actions|;
  }

  /**
    Reconcile: a failed fetch is returned, except a missing resource, for
    which the console link is removed on OpenShift 4.3 and later (a failed
    platform detection counts as elsewhere) and nothing is done elsewhere;
    a fetched resource goes through the actions, and the error of the first
    that fails decides the outcome: a conflict is a requeue without an
    error, any other error is returned.
  */
  method Reconcile(c: Cluster, env: Env, actions: seq<ActionKind>, request: Key)
    returns (result: Outcome, ghost actionErr: Option<Error>, ghost ran: nat)
    requires Sound(c) && env.Valid()
    modifies c
    ensures Sound(c)
    ensures result.requeue ==> result.err.None?
    ensures old(c.ReadAtlasMap(request)).Err? && old(c.ReadAtlasMap(request)).error != NotFound ==>
      result == Outcome(false, Some(old(c.ReadAtlasMap(request)).error)) && unchanged(c)
    ensures old(c.ReadAtlasMap(request)) == Err(NotFound) && !(env.IsOpenShift() && IsOpenShift43Plus(env.clusterVersion)) ==>
      result == Outcome(false, None) && unchanged(c)
    ensures old(c.ReadAtlasMap(request)) == Err(NotFound) && env.IsOpenShift() && IsOpenShift43Plus(env.clusterVersion) ==>
      var link := ConsoleLinkActions.LinkRef(Placeholder(request));
      && !result.requeue
      && (old(c.Read(link)) == Err(NotFound) ==> result.err.None? && unchanged(c))
      && (old(c.Read(link)).Err? && old(c.Read(link)).error != NotFound ==>
        result.err == Some(old(c.Read(link)).error) && unchanged(c))
      && (old(c.Read(link)).Ok? ==> result.err == old(c.DeleteRefusal(link)))
      && (old(c.Read(link)).Ok? && result.err.None? ==> Deleted(c, link))
    ensures old(c.ReadAtlasMap(request)).Ok? ==>
      var cr := old(c.ReadAtlasMap(request)).value;
      && ran <= |actions|
      && (actionErr.None? <==> ran == |actions|)
      && result == ActionOutcome(actionErr)
      && (forall k | 0 <= k < ran && LeavesChild(actions[k]) :: ChildRef(actions[k], cr) in c.objects)
      && (var written := Children(actions[..if actionErr.Some? then ran + 1 else ran], cr);
          c.objects - written == old(c.objects) - written)
      && c.atlasMaps - {request} == old(c.atlasMaps) - {request}
      && (old(AllSettled(c, env, actions, cr)) ==> result == Outcome(false, None) && unchanged(c))
  {
    actionErr, ran := None, 0;
    var instance := c.GetAtlasMap(request);
    if instance.Err? {
      if instance.error.IsNotFound() {
        if env.IsOpenShift() && IsOpenShift43Plus(env.clusterVersion) {
          var err := ConsoleLinkActions.RemoveConsoleLink(c, Placeholder(request));
          return Outcome(false, err), actionErr, ran;
        }
        return Outcome(false, None), actionErr, ran;
      }
      return Outcome(false, Some(instance.error)), actionErr, ran;
    }
    var err;
    err, ran := RunActions(c, env, actions, instance.value);
    actionErr := err;
    result := ActionOutcome(err);
  }
}
