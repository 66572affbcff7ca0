/**
  The Deployment action: creates the AtlasMap Deployment, then keeps its
  replica count, image, probe paths, resources and version annotation in
  line with the resource, and reports the phase the replica counts imply.

  The replica count can be changed on either side: by editing the resource
  or by scaling the Deployment.  The annotation records the resource version
  the Deployment was last brought in line with.  While it still names the
  current resource version the resource has not changed since, so a
  differing count was set on the Deployment and is copied into the
  resource; otherwise the resource's count is written to the Deployment.
*/
module DeploymentActions {
  import opened Wrappers
  import opened Errors
  import opened Meta
  import opened AtlasMapTypes
  import opened Resources
  import opened Objects
  import opened ClusterApi
  import opened ActionUtils
  import opened ActionBase

  /** The annotation holding the resource version the Deployment was last synced with. */
  const VersionAnnotation: string := "atlasmap.io/atlasmap.resource.version"
  const PortJolokia: int := 8778
  const PortPrometheus: int := 9779

  function DeploymentRef(cr: AtlasMap): Ref
  {
    Ref(DeploymentKind, cr.Key())
  }

  /** The AtlasMap container: the image, three named ports, both probes on `probePath`, no resources yet. */
  function AtlasMapContainer(cr: AtlasMap, probePath: string): (k: Container)
    ensures k.name == "atlasmap" && k.image == AtlasMapImage(cr)
    ensures k.ports == [ContainerPort("http", PortAtlasMap), ContainerPort("jolokia", PortJolokia), ContainerPort("prometheus", PortPrometheus)]
    ensures k.livenessPath == probePath && k.readinessPath == probePath
    ensures k.resources == Requirements(map[], map[])
  {
    Container("atlasmap", AtlasMapImage(cr),
      [ContainerPort("http", PortAtlasMap), ContainerPort("jolokia", PortJolokia), ContainerPort("prometheus", PortPrometheus)],
      probePath, probePath, Requirements(map[], map[]))
  }

  /**
    createAtlasMapDeployment: named after the resource, labelled, annotated
    with the resource's current version, asking for `spec.replicas` pods
    selected and labelled by the same labels, each running the one AtlasMap
    container.
  */
  function AtlasMapDeployment(cr: AtlasMap, probePath: string): (d: Deployment)
    ensures d.meta.Key() == cr.Key() && d.meta.labels == AtlasMapLabels(cr) && d.meta.controller.None?
    ensures d.meta.annotations == Some(map[VersionAnnotation := cr.ResourceVersion()])
    ensures d.replicas == cr.spec.replicas
    ensures d.selector == AtlasMapLabels(cr) && d.templateLabels == AtlasMapLabels(cr)
    ensures d.containers == [AtlasMapContainer(cr, probePath)]
    ensures d.readyReplicas == 0
  {
    var meta := NewMeta(cr.Name(), cr.Namespace(), AtlasMapLabels(cr));
    Deployment(meta.(annotations := Some(map[VersionAnnotation := cr.ResourceVersion()])), cr.spec.replicas,
      AtlasMapLabels(cr), AtlasMapLabels(cr), [AtlasMapContainer(cr, probePath)], 0)
  }

  /** The Deployment with `resources` on its first container. */
  function WithResources(d: Deployment, resources: Requirements): (d': Deployment)
    requires |d.containers| > 0
    ensures |d'.containers| == |d.containers| && d'.containers[1..] == d.containers[1..]
    ensures d'.containers[0] == d.containers[0].(resources := resources)
    ensures d'.meta == d.meta && d'.replicas == d.replicas && d'.readyReplicas == d.readyReplicas
  {
    d.(containers := [d.containers[0].(resources := resources)] + d.containers[1..])
  }

  /** The Deployment with the version annotation set to `v`; the other annotations stay. */
  function Restamped(d: Deployment, v: string): (d': Deployment)
    requires d.meta.annotations.Some?
    ensures d'.meta.annotations.Some? && d'.meta.Annotation(VersionAnnotation) == v
    ensures forall k | k != VersionAnnotation :: d'.meta.Annotation(k) == d.meta.Annotation(k)
    ensures d'.meta.Key() == d.meta.Key() && d'.replicas == d.replicas && d'.containers == d.containers
    ensures d'.readyReplicas == d.readyReplicas
  {
    d.(meta := d.meta.(annotations := Some(d.meta.annotations.value[VersionAnnotation := v])))
  }

  /**
    The annotation still names the resource's version: a Deployment count
    that differs is copied into the resource.  A Deployment without
    annotations never pulls.
  */
  predicate PullsReplicas(d: Deployment, cr: AtlasMap)
  {
    d.meta.annotations.Some? && d.meta.Annotation(VersionAnnotation) == cr.ResourceVersion()
  }

  /**
    The phase the Deployment's counts imply: Undeployed when it asks for no
    pods and has none ready, Deployed when it asks for some and some are
    ready, and Deploying in every other case.
  */
  function DerivePhase(replicas: int, ready: int): Phase
  {
    if replicas == 0 && ready == 0 then Undeployed
    else if replicas > 0 && ready > 0 then Deployed
    else Deploying
  }

  /**
    For counts that are not negative, Deploying means that exactly one of
    them is zero: pods are asked for and none is ready, or pods are still
    ready after a scale down to zero.
  */
  lemma DeployingIsHalfway(replicas: nat, ready: nat)
    ensures DerivePhase(replicas, ready) == Undeployed <==> replicas == 0 && ready == 0
    ensures DerivePhase(replicas, ready) == Deployed <==> replicas > 0 && ready > 0
    ensures DerivePhase(replicas, ready) == Deploying <==> (replicas == 0) != (ready == 0)
  {
  }

  /**
    The Deployment is in line with the resource: the same replica count, the
    annotation naming the resource's version, the phase its counts imply,
    and, when it has a container, the resource's image in both places and
    resources as the spec asks.
  */
  predicate InLine(d: Deployment, cr: AtlasMap, parse: QuantityParser)
  {
    && d.replicas == cr.spec.replicas
    && PullsReplicas(d, cr)
    && cr.status.phase == Some(DerivePhase(d.replicas, d.readyReplicas))
    && (|d.containers| > 0 ==>
      && d.containers[0].image == AtlasMapImage(cr)
      && cr.status.image == AtlasMapImage(cr)
      && AllAccepted(cr.spec, parse)
      && !Outdated(cr.spec, parse, d.containers[0].resources))
  }

  /** The stored Deployment is in line with the resource. */
  ghost predicate DeploymentConverged(c: Cluster, cr: AtlasMap, parse: QuantityParser)
    reads c
  {
    && DeploymentRef(cr) in c.objects
    && c.objects[DeploymentRef(cr)].DeploymentObject?
    && InLine(c.objects[DeploymentRef(cr)].deployment, cr, parse)
  }

  /**
    What the resource must allow for its Deployment to be brought in line:
    when there is a container, every resource string is a quantity, and a
    probe path can be derived whenever the image has to change.
  */
  predicate Convergible(d: Deployment, cr: AtlasMap, parse: QuantityParser)
  {
    |d.containers| > 0 ==>
      && AllAccepted(cr.spec, parse)
      && (d.containers[0].image != AtlasMapImage(cr) ==> AtlasMapProbePath(cr).Ok?)
  }

  /** A change of the replica count alone keeps what the resource allows. */
  lemma ConvergibleKeptByReplicas(d: Deployment, cr: AtlasMap, d': Deployment, cr': AtlasMap, parse: QuantityParser)
    requires Convergible(d, cr, parse)
    requires d'.containers == d.containers && cr'.spec == cr.spec.(replicas := cr'.spec.replicas)
    ensures Convergible(d', cr', parse)
  {
    assert AtlasMapImage(cr') == AtlasMapImage(cr);
    assert AtlasMapProbePath(cr') == AtlasMapProbePath(cr);
  }

  /** The step wrote at most the resource's Deployment. */
  twostate predicate DeploymentOnly(c: Cluster, cr: AtlasMap)
    reads c
  {
    OnlyAt(old(c.objects), c.objects, DeploymentRef(cr)) && c.atlasMaps == old(c.atlasMaps)
  }

  /** The step wrote at most the resource's Deployment and the resource itself. */
  twostate predicate DeploymentAndResourceOnly(c: Cluster, cr: AtlasMap)
    reads c
  {
    OnlyAt(old(c.objects), c.objects, DeploymentRef(cr)) && OnlyAt(old(c.atlasMaps), c.atlasMaps, cr.Key())
  }

  /**
    The replica part of reconcileReplicas: in pull mode a differing
    Deployment count is written into the resource; otherwise a differing
    resource count is written to the Deployment together with the
    annotation; equal counts write nothing.
  */
  method SyncReplicas(c: Cluster, cr: AtlasMap, d: Deployment) returns (cr': AtlasMap, d': Deployment, err: Option<Error>)
    requires Sound(c) && Coherent(c, cr)
    requires DeploymentRef(cr) in c.objects && c.objects[DeploymentRef(cr)] == DeploymentObject(d)
    modifies c
    ensures Sound(c) && DeploymentAndResourceOnly(c, cr)
    ensures d.replicas == cr.spec.replicas ==> err.None? && cr' == cr && d' == d && unchanged(c)
    ensures PullsReplicas(d, cr) ==> d' == d && c.objects == old(c.objects)
    ensures PullsReplicas(d, cr) && d.replicas != cr.spec.replicas ==>
      err == old(c.AtlasMapRefusal(Verb.Update, cr.(spec := cr.spec.(replicas := d.replicas))))
    ensures !PullsReplicas(d, cr) ==> cr' == cr && c.atlasMaps == old(c.atlasMaps)
    ensures !PullsReplicas(d, cr) && d.replicas != cr.spec.replicas ==>
      err == old(c.UpdateRefusal(DeploymentObject(Restamped(d, cr.ResourceVersion()).(replicas := cr.spec.replicas))))
    ensures !PullsReplicas(d, cr) && d.replicas != cr.spec.replicas && err.None? ==>
      d'.meta.Annotation(VersionAnnotation) == cr.ResourceVersion()
    ensures err.Some? ==> unchanged(c)
    ensures Undisturbed(c) ==> err.None?
    ensures err.None? ==>
      && Coherent(c, cr') && cr'.Key() == cr.Key()
      && c.objects[DeploymentRef(cr)] == DeploymentObject(d')
      && cr'.spec == cr.spec.(replicas := d'.replicas)
      && d'.containers == d.containers && d'.readyReplicas == d.readyReplicas
  {
    cr' := cr;
    d' := d;
    err := None;
    if d.meta.annotations.Some? && d.meta.Annotation(VersionAnnotation) == cr.ResourceVersion() {
      if cr.spec.replicas != d.replicas {
        cr' := cr.(spec := cr.spec.(replicas := d.replicas));
        cr', err := c.UpdateAtlasMap(cr');
      }
    } else if d.replicas != cr.spec.replicas {
      assert c.objects[DeploymentRef(cr)].DeploymentObject?;
      var pushed := Restamped(d, cr.ResourceVersion()).(replicas := cr.spec.replicas);
      var stored;
      stored, err := c.Update(DeploymentObject(pushed));
      if err.None? {
        d' := stored.deployment;
      }
    }
  }

  /**
    The phase part of reconcileReplicas: the Deployment is read again and
    the phase its counts imply is set; a failed read is returned, a refused
    phase write is not.
  */
  method ReportPhase(c: Cluster, cr: AtlasMap, d: Deployment) returns (cr': AtlasMap, err: Option<Error>)
    requires Sound(c) && Coherent(c, cr)
    requires DeploymentRef(cr) in c.objects && c.objects[DeploymentRef(cr)] == DeploymentObject(d)
    modifies c
    ensures Sound(c) && DeploymentAndResourceOnly(c, cr) && c.objects == old(c.objects)
    ensures err == (if old(c.Read(DeploymentRef(cr))).Err? then Some(old(c.Read(DeploymentRef(cr))).error) else None)
    ensures err.Some? ==> cr' == cr && unchanged(c)
    ensures Undisturbed(c) ==> err.None?
    ensures err.None? ==>
      && Coherent(c, cr') && cr'.Key() == cr.Key() && cr'.spec == cr.spec
      && cr'.status == cr.status.(phase := Some(DerivePhase(d.replicas, d.readyReplicas)))
    ensures cr.status.phase == Some(DerivePhase(d.replicas, d.readyReplicas)) ==> unchanged(c) && (err.None? ==> cr' == cr)
  {
    var updated := c.Get(DeploymentRef(cr));
    if updated.Err? {
      return cr, Some(updated.error);
    }
    var current := updated.value.deployment;
    var phase: Phase;
    if current.replicas == 0 && current.readyReplicas == 0 {
      phase := Undeployed;
    } else if current.replicas > 0 && current.readyReplicas > 0 {
      phase := Deployed;
    } else {
      phase := Deploying;
    }
    cr' := UpdatePhase(c, cr, phase);
    err := None;
  }

  /**
    reconcileReplicas: the replica count in either direction, then the
    phase from the Deployment as stored afterwards.
  */
  method ReconcileReplicas(c: Cluster, cr: AtlasMap, d: Deployment) returns (cr': AtlasMap, d': Deployment, err: Option<Error>)
    requires Sound(c) && Coherent(c, cr)
    requires DeploymentRef(cr) in c.objects && c.objects[DeploymentRef(cr)] == DeploymentObject(d)
    modifies c
    ensures Sound(c) && DeploymentAndResourceOnly(c, cr)
    ensures err.None? ==>
      && Coherent(c, cr') && cr'.Key() == cr.Key()
      && c.objects[DeploymentRef(cr)] == DeploymentObject(d')
      && cr'.spec == cr.spec.(replicas := d'.replicas)
      && cr'.status.phase == Some(DerivePhase(d'.replicas, d'.readyReplicas))
      && d'.containers == d.containers && d'.readyReplicas == d.readyReplicas
    ensures err.None? && PullsReplicas(d, cr) ==> d' == d
    ensures err.None? && !PullsReplicas(d, cr) ==> d'.replicas == cr.spec.replicas
    ensures d.replicas == cr.spec.replicas && cr.status.phase == Some(DerivePhase(d.replicas, d.readyReplicas)) ==>
      unchanged(c) && (err.None? ==> cr' == cr && d' == d)
    ensures d.replicas == cr.spec.replicas && old(c.Read(DeploymentRef(cr))).Ok? ==> err.None?
    ensures Undisturbed(c) ==> err.None?
  {
    ghost var objects0, maps0 := c.objects, c.atlasMaps;
    cr', d', err := SyncReplicas(c, cr, d);
    if err.Some? {
      return;
    }
    ghost var objects1, maps1 := c.objects, c.atlasMaps;
    cr', err := ReportPhase(c, cr', d');
    OnlyAtTrans(objects0, objects1, c.objects, DeploymentRef(cr));
    OnlyAtTrans(maps0, maps1, c.atlasMaps, cr.Key());
  }

  /** The Deployment with `image` on its first container and both probes on `probePath`. */
  function Reimaged(d: Deployment, image: string, probePath: string): (d': Deployment)
    requires |d.containers| > 0
    ensures |d'.containers| == |d.containers| && d'.containers[1..] == d.containers[1..]
    ensures d'.containers[0] == d.containers[0].(image := image, livenessPath := probePath, readinessPath := probePath)
    ensures d'.meta == d.meta && d'.replicas == d.replicas && d'.readyReplicas == d.readyReplicas
  {
    d.(containers := [d.containers[0].(image := image, livenessPath := probePath, readinessPath := probePath)] + d.containers[1..])
  }

  /**
    The Deployment part of reconcileImage, for the resource's image and
    probe path: a differing image is replaced, both probe paths are set and
    the Deployment is updated; a probe path that could not be derived is
    the error.
  */
  method ReplaceImage(c: Cluster, cr: AtlasMap, d: Deployment, image: string, probePath: Result<string, Error>)
    returns (d': Deployment, err: Option<Error>)
    requires Sound(c)
    requires |d.containers| > 0
    requires DeploymentRef(cr) in c.objects && c.objects[DeploymentRef(cr)] == DeploymentObject(d)
    modifies c
    ensures Sound(c) && DeploymentOnly(c, cr)
    ensures d.containers[0].image == image ==> err.None? && d' == d && unchanged(c)
    ensures d.containers[0].image != image && probePath.Err? ==> err == Some(probePath.error) && unchanged(c)
    ensures err.Some? ==> unchanged(c)
    ensures Undisturbed(c) && (d.containers[0].image != image ==> probePath.Ok?) ==> err.None?
    ensures err.None? ==>
      && c.objects[DeploymentRef(cr)] == DeploymentObject(d')
      && |d'.containers| == |d.containers| && d'.containers[1..] == d.containers[1..]
      && d'.containers[0].image == image && d'.containers[0].resources == d.containers[0].resources
      && d'.replicas == d.replicas && d'.readyReplicas == d.readyReplicas
      && d'.meta.annotations == d.meta.annotations
    ensures d.containers[0].image != image && probePath.Ok? ==>
      && err == old(c.UpdateRefusal(DeploymentObject(Reimaged(d, image, probePath.value))))
      && (err.None? ==> d'.containers[0] == d.containers[0].(image := image, livenessPath := probePath.value, readinessPath := probePath.value))
  {
    d' := d;
    err := None;
    var container := d.containers[0];
    if container.image != image {
      container := container.(image := image);
      if probePath.Err? {
        return d, Some(probePath.error);
      }
      if container.livenessPath != probePath.value {
        container := container.(livenessPath := probePath.value);
      }
      if container.readinessPath != probePath.value {
        container := container.(readinessPath := probePath.value);
      }
      assert d.(containers := [container] + d.containers[1..]) == Reimaged(d, image, probePath.value);
      d', err := Reimage(c, cr, d, image, probePath.value);
    }
  }

  /** The update reconcileImage makes: the image and both probe paths set on the first container. */
  method Reimage(c: Cluster, cr: AtlasMap, d: Deployment, image: string, probePath: string) returns (d': Deployment, err: Option<Error>)
    requires Sound(c)
    requires |d.containers| > 0
    requires DeploymentRef(cr) in c.objects && c.objects[DeploymentRef(cr)] == DeploymentObject(d)
    modifies c
    ensures Sound(c) && DeploymentOnly(c, cr)
    ensures err == old(c.UpdateRefusal(DeploymentObject(Reimaged(d, image, probePath))))
    ensures err.Some? ==> unchanged(c) && d' == d
    ensures err.None? ==>
      && c.objects[DeploymentRef(cr)] == DeploymentObject(d')
      && |d'.containers| == |d.containers| && d'.containers[1..] == d.containers[1..]
      && d'.containers[0] == d.containers[0].(image := image, livenessPath := probePath, readinessPath := probePath)
      && d'.replicas == d.replicas && d'.readyReplicas == d.readyReplicas
      && d'.meta.annotations == d.meta.annotations
  {
    d' := d;
    assert c.objects[DeploymentRef(cr)].DeploymentObject?;
    var stored;
    stored, err := c.Update(DeploymentObject(Reimaged(d, image, probePath)));
    if err.None? {
      d' := stored.deployment;
    }
  }

  /** The status part of reconcileImage: a differing status image is written; a refused write is returned. */
  method ReportImage(c: Cluster, cr: AtlasMap, image: string) returns (cr': AtlasMap, err: Option<Error>)
    requires Sound(c) && Coherent(c, cr)
    modifies c
    ensures Sound(c) && c.objects == old(c.objects) && OnlyAt(old(c.atlasMaps), c.atlasMaps, cr.Key())
    ensures cr.status.image == image ==> err.None? && cr' == cr && unchanged(c)
    ensures cr.status.image != image ==> err == old(c.AtlasMapRefusal(Verb.UpdateStatus, cr.(status := cr.status.(image := image))))
    ensures err.Some? ==> unchanged(c)
    ensures Undisturbed(c) ==> err.None?
    ensures err.None? ==>
      && Coherent(c, cr') && cr'.Key() == cr.Key() && cr'.spec == cr.spec
      && cr'.status == cr.status.(image := image)
  {
    cr' := cr;
    err := None;
    if cr.status.image != image {
      cr' := cr.(status := cr.status.(image := image));
      cr', err := c.UpdateAtlasMapStatus(cr');
    }
  }

  /**
    reconcileImage for `image` and `probePath`: the Deployment part, then
    the status part; the first error is returned.
  */
  method ReconcileImage(c: Cluster, cr: AtlasMap, d: Deployment, image: string, probePath: Result<string, Error>)
    returns (cr': AtlasMap, d': Deployment, err: Option<Error>)
    requires Sound(c) && Coherent(c, cr)
    requires |d.containers| > 0
    requires DeploymentRef(cr) in c.objects && c.objects[DeploymentRef(cr)] == DeploymentObject(d)
    modifies c
    ensures Sound(c) && DeploymentAndResourceOnly(c, cr)
    ensures err.None? ==>
      && Coherent(c, cr') && cr'.Key() == cr.Key() && cr'.spec == cr.spec
      && cr'.status == cr.status.(image := image)
      && c.objects[DeploymentRef(cr)] == DeploymentObject(d')
      && |d'.containers| > 0
      && d'.containers[0].image == image && d'.containers[0].resources == d.containers[0].resources
      && d'.replicas == d.replicas && d'.readyReplicas == d.readyReplicas
      && d'.meta.annotations == d.meta.annotations
    ensures d.containers[0].image == image && cr.status.image == image ==> err.None? && cr' == cr && d' == d && unchanged(c)
    ensures Undisturbed(c) && (d.containers[0].image != image ==> probePath.Ok?) ==> err.None?
  {
    cr' := cr;
    d', err := ReplaceImage(c, cr, d, image, probePath);
    if err.Some? {
      return;
    }
    cr', err := ReportImage(c, cr, d'.containers[0].image);
  }

  /**
    reconcileResources: when the container's limits or requests differ from
    what the spec asks, they are replaced and the Deployment is updated; a
    spec string that is not a quantity is an error.  ConfigureResources
    cannot fail here, since the comparison already parsed every string.
  */
  method ReconcileResources(c: Cluster, env: Env, cr: AtlasMap, d: Deployment) returns (d': Deployment, err: Option<Error>)
    requires Sound(c) && env.Valid()
    requires |d.containers| > 0
    requires DeploymentRef(cr) in c.objects && c.objects[DeploymentRef(cr)] == DeploymentObject(d)
    modifies c
    ensures Sound(c) && DeploymentOnly(c, cr)
    ensures !AllAccepted(cr.spec, env.parse) ==> err.Some? && err.value.InvalidQuantity? && d' == d && unchanged(c)
    ensures AllAccepted(cr.spec, env.parse) && !Outdated(cr.spec, env.parse, d.containers[0].resources) ==>
      err.None? && d' == d && unchanged(c)
    ensures AllAccepted(cr.spec, env.parse) && Outdated(cr.spec, env.parse, d.containers[0].resources) ==>
      err == old(c.UpdateRefusal(DeploymentObject(WithResources(d, Configured(cr.spec, env.parse)))))
    ensures err.Some? ==> unchanged(c)
    ensures Undisturbed(c) && AllAccepted(cr.spec, env.parse) ==> err.None?
    ensures err.None? ==>
      && AllAccepted(cr.spec, env.parse)
      && c.objects[DeploymentRef(cr)] == DeploymentObject(d')
      && |d'.containers| == |d.containers| && d'.containers[1..] == d.containers[1..]
      && !Outdated(cr.spec, env.parse, d'.containers[0].resources)
      && d'.containers[0] == d.containers[0].(resources := d'.containers[0].resources)
      && d'.replicas == d.replicas && d'.readyReplicas == d.readyReplicas
      && d'.meta.annotations == d.meta.annotations
  {
    d' := d;
    var container := d.containers[0];
    var updateResources := ResourceListChanged(cr.spec, container.resources, env.parse, env.limitsOrder, env.requestsOrder);
    if updateResources.Err? {
      return d, Some(updateResources.error);
    }
    err := None;
    if updateResources.value {
      var resources, _ := ConfigureResources(cr.spec, env.parse, container.resources);
      ConfiguredIsCurrent(cr.spec, env.parse, resources);
      d', err := ReplaceResources(c, cr, d, resources);
    }
  }

  /** The update reconcileResources makes: `resources` on the first container. */
  method ReplaceResources(c: Cluster, cr: AtlasMap, d: Deployment, resources: Requirements) returns (d': Deployment, err: Option<Error>)
    requires Sound(c)
    requires |d.containers| > 0
    requires DeploymentRef(cr) in c.objects && c.objects[DeploymentRef(cr)] == DeploymentObject(d)
    modifies c
    ensures Sound(c) && DeploymentOnly(c, cr)
    ensures err == old(c.UpdateRefusal(DeploymentObject(WithResources(d, resources))))
    ensures err.Some? ==> unchanged(c) && d' == d
    ensures err.None? ==>
      && c.objects[DeploymentRef(cr)] == DeploymentObject(d')
      && |d'.containers| == |d.containers| && d'.containers[1..] == d.containers[1..]
      && d'.containers[0] == d.containers[0].(resources := resources)
      && d'.replicas == d.replicas && d'.readyReplicas == d.readyReplicas
      && d'.meta.annotations == d.meta.annotations
  {
    d' := d;
    assert c.objects[DeploymentRef(cr)].DeploymentObject?;
    var stored;
    stored, err := c.Update(DeploymentObject(WithResources(d, resources)));
    if err.None? {
      d' := stored.deployment;
    }
  }

  /**
    updateResourceVersion: the resource is read again, and an annotation
    that does not name its version is set to it and the Deployment updated.
    A failed read is returned; a Deployment without annotations is left alone.
  */
  method UpdateResourceVersion(c: Cluster, cr: AtlasMap, d: Deployment) returns (d': Deployment, err: Option<Error>)
    requires Sound(c)
    requires DeploymentRef(cr) in c.objects && c.objects[DeploymentRef(cr)] == DeploymentObject(d)
    modifies c
    ensures Sound(c) && DeploymentOnly(c, cr)
    ensures old(c.ReadAtlasMap(cr.Key())).Err? ==> err == Some(old(c.ReadAtlasMap(cr.Key())).error) && d' == d && unchanged(c)
    ensures old(c.ReadAtlasMap(cr.Key())).Ok? ==>
      var v := old(c.ReadAtlasMap(cr.Key())).value.ResourceVersion();
      && (d.meta.annotations.None? || d.meta.Annotation(VersionAnnotation) == v ==> err.None? && d' == d && unchanged(c))
      && (d.meta.annotations.Some? && d.meta.Annotation(VersionAnnotation) != v ==>
        err == old(c.UpdateRefusal(DeploymentObject(Restamped(d, v))))
        && (err.None? ==> d'.meta.Annotation(VersionAnnotation) == v))
    ensures err.Some? ==> unchanged(c)
    ensures err.None? ==>
      && c.objects[DeploymentRef(cr)] == DeploymentObject(d')
      && d'.containers == d.containers && d'.replicas == d.replicas && d'.readyReplicas == d.readyReplicas
      && d'.meta.annotations.Some? == d.meta.annotations.Some?
    ensures err.None? && Coherent(c, cr) && d.meta.annotations.Some? ==> PullsReplicas(d', cr)
    ensures Undisturbed(c) && cr.Key() in c.atlasMaps ==> err.None?
  {
    var instance := c.GetAtlasMap(cr.Key());
    if instance.Err? {
      return d, Some(instance.error);
    }
    d' := d;
    err := None;
    if d.meta.annotations.Some? && d.meta.Annotation(VersionAnnotation) != instance.value.ResourceVersion() {
      d', err := Restamp(c, cr, d, instance.value.ResourceVersion());
    }
  }

  /** The update updateResourceVersion makes: the version annotation set to `v`. */
  method Restamp(c: Cluster, cr: AtlasMap, d: Deployment, v: string) returns (d': Deployment, err: Option<Error>)
    requires Sound(c) && d.meta.annotations.Some?
    requires DeploymentRef(cr) in c.objects && c.objects[DeploymentRef(cr)] == DeploymentObject(d)
    modifies c
    ensures Sound(c) && DeploymentOnly(c, cr)
    ensures err == old(c.UpdateRefusal(DeploymentObject(Restamped(d, v))))
    ensures err.Some? ==> unchanged(c) && d' == d
    ensures err.None? ==>
      && c.objects[DeploymentRef(cr)] == DeploymentObject(d')
      && d'.meta.annotations.Some? && d'.meta.Annotation(VersionAnnotation) == v
      && d'.containers == d.containers && d'.replicas == d.replicas && d'.readyReplicas == d.readyReplicas
  {
    d' := d;
    assert c.objects[DeploymentRef(cr)].DeploymentObject?;
    var stored;
    stored, err := c.Update(DeploymentObject(Restamped(d, v)));
    if err.None? {
      d' := stored.deployment;
    }
  }

  /**
    The image and resources steps, which deploymentAction.Handle runs only on a
    Deployment with a container: reconcileImage (the Deployment part, then
    the status part), then reconcileResources.
  */
  method ReconcileContainer(c: Cluster, env: Env, cr: AtlasMap, d: Deployment) returns (cr': AtlasMap, d': Deployment, err: Option<Error>)
    requires Sound(c) && Coherent(c, cr) && env.Valid()
    requires |d.containers| > 0
    requires DeploymentRef(cr) in c.objects && c.objects[DeploymentRef(cr)] == DeploymentObject(d)
    modifies c
    ensures Sound(c) && DeploymentAndResourceOnly(c, cr)
    ensures err.None? ==>
      && Coherent(c, cr') && cr'.Key() == cr.Key() && cr'.spec == cr.spec
      && cr'.status == cr.status.(image := AtlasMapImage(cr))
      && c.objects[DeploymentRef(cr)] == DeploymentObject(d')
      && |d'.containers| > 0
      && d'.containers[0].image == AtlasMapImage(cr)
      && AllAccepted(cr.spec, env.parse) && !Outdated(cr.spec, env.parse, d'.containers[0].resources)
      && d'.replicas == d.replicas && d'.readyReplicas == d.readyReplicas
      && d'.meta.annotations == d.meta.annotations
    ensures InLine(d, cr, env.parse) ==> err.None? && cr' == cr && d' == d && unchanged(c)
    ensures Undisturbed(c) && Convergible(d, cr, env.parse) ==> err.None?
  {
    ghost var objects0 := c.objects;
    cr', d', err := ReconcileImage(c, cr, d, AtlasMapImage(cr), AtlasMapProbePath(cr));
    if err.Some? {
      return;
    }
    ghost var objects1 := c.objects;
    var d2;
    d2, err := ReconcileResources(c, env, cr', d');
    OnlyAtTrans(objects0, objects1, c.objects, DeploymentRef(cr));
    if err.None? {
      d' := d2;
    }
  }

  /**
    What deploymentAction.Handle does after the replicas: image and
    resources when there is a container, then the version annotation.  On
    a Deployment whose count and phase the resource already matches, it
    leaves the Deployment in line with the resource.
  */
  method ReconcileRest(c: Cluster, env: Env, cr: AtlasMap, d: Deployment) returns (cr': AtlasMap, err: Option<Error>)
    requires Sound(c) && Coherent(c, cr) && env.Valid()
    requires DeploymentRef(cr) in c.objects && c.objects[DeploymentRef(cr)] == DeploymentObject(d)
    modifies c
    ensures Sound(c) && DeploymentAndResourceOnly(c, cr)
    ensures err.None? ==> Coherent(c, cr') && cr'.Key() == cr.Key() && cr'.spec == cr.spec && cr'.status.phase == cr.status.phase
    ensures err.None? && d.replicas == cr.spec.replicas && cr.status.phase == Some(DerivePhase(d.replicas, d.readyReplicas)) ==>
      DeploymentConverged(c, cr', env.parse)
    ensures InLine(d, cr, env.parse) ==> unchanged(c) && (err.None? ==> cr' == cr)
    ensures InLine(d, cr, env.parse) && old(c.ReadAtlasMap(cr.Key())).Ok? ==> err.None?
    ensures Undisturbed(c) && Convergible(d, cr, env.parse) ==> err.None?
  {
    cr' := cr;
    var d' := d;
    ghost var objects0, maps0 := c.objects, c.atlasMaps;
    if |d.containers| > 0 {
      cr', d', err := ReconcileContainer(c, env, cr, d);
      if err.Some? {
        return;
      }
    }
    ghost var objects1 := c.objects;
    d', err := UpdateResourceVersion(c, cr', d');
    OnlyAtTrans(objects0, objects1, c.objects, DeploymentRef(cr));
  }

  /**
    The branch of deploymentAction.Handle for an existing Deployment:
    replicas and phase, then image and resources when there is a
    container, then the version annotation; the first error is returned.
  */
  method Converge(c: Cluster, env: Env, cr: AtlasMap, d: Deployment) returns (cr': AtlasMap, err: Option<Error>)
    requires Sound(c) && Coherent(c, cr) && env.Valid()
    requires DeploymentRef(cr) in c.objects && c.objects[DeploymentRef(cr)] == DeploymentObject(d)
    modifies c
    ensures Sound(c) && DeploymentAndResourceOnly(c, cr)
    ensures err.None? ==> Coherent(c, cr') && DeploymentConverged(c, cr', env.parse)
    ensures err.None? ==> cr'.spec == cr.spec.(replicas := if PullsReplicas(d, cr) then d.replicas else cr.spec.replicas)
    ensures InLine(d, cr, env.parse) ==> unchanged(c) && (err.None? ==> cr' == cr)
    ensures InLine(d, cr, env.parse) && old(c.Read(DeploymentRef(cr))).Ok? && old(c.ReadAtlasMap(cr.Key())).Ok? ==> err.None?
    ensures Undisturbed(c) && Convergible(d, cr, env.parse) ==> err.None?
    ensures err.None? ==> cr'.Key() == cr.Key()
  {
    var d';
    ghost var objects0, maps0 := c.objects, c.atlasMaps;
    cr', d', err := ReconcileReplicas(c, cr, d);
    if err.Some? {
      return;
    }
    ghost var objects1, maps1 := c.objects, c.atlasMaps;
    if Convergible(d, cr, env.parse) {
      ConvergibleKeptByReplicas(d, cr, d', cr', env.parse);
    }
    cr', err := ReconcileRest(c, env, cr', d');
    OnlyAtTrans(objects0, objects1, c.objects, DeploymentRef(cr));
    OnlyAtTrans(maps0, maps1, c.atlasMaps, cr.Key());
  }

  /**
    A Deployment without a controller, as the template is: setting the
    controller reference fails only for an unregistered kind, and the owned
    copy keeps the annotations.
  */
  lemma OwnableTemplate(cr: AtlasMap, d: Deployment, registered: bool, v: string)
    requires d.meta.annotations.Some? && d.meta.controller.None?
    ensures OwnerRefusal(cr, DeploymentObject(d), registered) == if registered then None else Some(NotRegistered)
    ensures var o := Owned(cr, DeploymentObject(d)).WithVersion(v);
      o.DeploymentObject? && o.deployment.meta.annotations.Some?
  {
  }

  /** The Deployment the resource asks for, with its resources configured. */
  function Template(cr: AtlasMap, probePath: string, parse: QuantityParser): (d: Deployment)
    requires AllAccepted(cr.spec, parse)
    ensures d.meta.annotations.Some? && d.meta.controller.None?
  {
    WithResources(AtlasMapDeployment(cr, probePath), Configured(cr.spec, parse))
  }

  /**
    The Deployment created for a resource already follows everything the
    later passes check but the phase and the status image: it is in pull
    mode, asks for the spec's count, selects the pods it labels, and runs
    the resource's image with the resources the spec asks for.
  */
  lemma TemplateInLine(cr: AtlasMap, probePath: string, parse: QuantityParser)
    requires AllAccepted(cr.spec, parse)
    ensures var d := Template(cr, probePath, parse);
      && PullsReplicas(d, cr) && d.replicas == cr.spec.replicas
      && d.selector == d.templateLabels
      && |d.containers| == 1 && d.containers[0].image == AtlasMapImage(cr)
      && d.containers[0].livenessPath == probePath && d.containers[0].readinessPath == probePath
      && !Outdated(cr.spec, parse, d.containers[0].resources)
  {
    ConfiguredIsCurrent(cr.spec, parse, Configured(cr.spec, parse));
  }

  /**
    The first part of deploymentAction.Handle for a missing Deployment: the
    probe path, then the template, then its resources; a version the probe
    path cannot be derived from, or a resource string that is not a
    quantity, is the error.
  */
  method BuildDeployment(env: Env, cr: AtlasMap) returns (r: Result<Deployment, Error>)
    ensures AtlasMapProbePath(cr).Err? ==> r == Err(AtlasMapProbePath(cr).error)
    ensures AtlasMapProbePath(cr).Ok? && !AllAccepted(cr.spec, env.parse) ==>
      r.Err? && Some(r.error) == FirstInvalid(env.parse, ResourceFields(cr.spec))
    ensures AtlasMapProbePath(cr).Ok? && AllAccepted(cr.spec, env.parse) ==>
      r == Ok(Template(cr, AtlasMapProbePath(cr).value, env.parse))
  {
    var probePath := AtlasMapProbePath(cr);
    if probePath.Err? {
      return Err(probePath.error);
    }
    var deployment := AtlasMapDeployment(cr, probePath.value);
    var resources, e := ConfigureResources(cr.spec, env.parse, deployment.containers[0].resources);
    if e.Some? {
      return Err(e.value);
    }
    return Ok(WithResources(deployment, resources));
  }

  /**
    The branch of deploymentAction.Handle for a missing Deployment: the
    template, then the create with the controller reference; the first
    error is returned and nothing is written before the create.
  */
  method CreateDeployment(c: Cluster, env: Env, cr: AtlasMap) returns (err: Option<Error>)
    requires Sound(c)
    modifies c
    ensures Sound(c)
    ensures AtlasMapProbePath(cr).Err? ==> err == Some(AtlasMapProbePath(cr).error) && unchanged(c)
    ensures AtlasMapProbePath(cr).Ok? && !AllAccepted(cr.spec, env.parse) ==>
      err.Some? && err == FirstInvalid(env.parse, ResourceFields(cr.spec)) && unchanged(c)
    ensures AtlasMapProbePath(cr).Ok? && AllAccepted(cr.spec, env.parse) ==>
      var obj := DeploymentObject(Template(cr, AtlasMapProbePath(cr).value, env.parse));
      && err == (if !env.ownerRegistered then Some(NotRegistered) else old(c.CreateRefusal(Owned(cr, obj))))
      && (err.None? ==> Created(c, Owned(cr, obj)))
      && (err.Some? ==> unchanged(c))
    ensures err.Some? ==> unchanged(c)
    ensures err.None? ==> OnlyAt(old(c.objects), c.objects, DeploymentRef(cr)) && c.atlasMaps == old(c.atlasMaps)
  {
    var deployment := BuildDeployment(env, cr);
    if deployment.Err? {
      return Some(deployment.error);
    }
    OwnableTemplate(cr, deployment.value, env.ownerRegistered, VersionString(c.revision + 1));
    err := DeployResource(c, env, cr, DeploymentObject(deployment.value));
  }

  /**
    deploymentAction.Handle: a missing Deployment is created; an existing
    one is brought in line with the resource, after which a second pass
    writes nothing; any other read error is returned.
  */
  method Handle(c: Cluster, env: Env, cr: AtlasMap) returns (cr': AtlasMap, err: Option<Error>)
    requires Sound(c) && Coherent(c, cr) && env.Valid()
    modifies c
    ensures Sound(c)
    ensures err.None? ==> Coherent(c, cr')
    ensures old(c.Read(DeploymentRef(cr))).Err? && old(c.Read(DeploymentRef(cr))).error != NotFound ==>
      err == Some(old(c.Read(DeploymentRef(cr))).error) && cr' == cr && unchanged(c)
    ensures old(c.Read(DeploymentRef(cr))) == Err(NotFound) ==> cr' == cr && c.atlasMaps == old(c.atlasMaps)
    ensures old(c.Read(DeploymentRef(cr))) == Err(NotFound) && AtlasMapProbePath(cr).Err? ==>
      err == Some(AtlasMapProbePath(cr).error) && unchanged(c)
    ensures old(c.Read(DeploymentRef(cr))) == Err(NotFound) && AtlasMapProbePath(cr).Ok? && !AllAccepted(cr.spec, env.parse) ==>
      err.Some? && err == FirstInvalid(env.parse, ResourceFields(cr.spec)) && unchanged(c)
    ensures old(c.Read(DeploymentRef(cr))) == Err(NotFound) && AtlasMapProbePath(cr).Ok? && AllAccepted(cr.spec, env.parse) ==>
      var obj := DeploymentObject(Template(cr, AtlasMapProbePath(cr).value, env.parse));
      && err == (if !env.ownerRegistered then Some(NotRegistered) else old(c.CreateRefusal(Owned(cr, obj))))
      && (err.None? ==> Created(c, Owned(cr, obj)))
      && (err.Some? ==> unchanged(c))
    ensures old(c.Read(DeploymentRef(cr))).Ok? && Undisturbed(c) && Convergible(old(c.Read(DeploymentRef(cr))).value.deployment, cr, env.parse) ==>
      err.None?
    ensures old(c.Read(DeploymentRef(cr))).Ok? && err.None? ==> DeploymentConverged(c, cr', env.parse)
    ensures old(c.Read(DeploymentRef(cr))).Ok? && old(DeploymentConverged(c, cr, env.parse)) ==>
      unchanged(c) && (err.None? ==> cr' == cr)
    ensures old(c.Read(DeploymentRef(cr))).Ok? && old(DeploymentConverged(c, cr, env.parse)) && old(c.ReadAtlasMap(cr.Key())).Ok? ==>
      err.None?
    ensures err.None? ==> cr'.Key() == cr.Key()
    ensures WritesAt(c, DeploymentRef(cr), cr.Key())
    ensures err.None? || DeploymentRef(cr) in old(c.objects) ==> DeploymentRef(cr) in c.objects
  {
    ghost var objects0, maps0 := c.objects, c.atlasMaps;
    var got := c.Get(DeploymentRef(cr));
    if got.Err? && got.error.IsNotFound() {
      err := CreateDeployment(c, env, cr);
      cr' := cr;
      if err.None? {
        OnlyAtRest(objects0, c.objects, DeploymentRef(cr));
      }
    } else if got.Ok? {
      cr', err := Converge(c, env, cr, got.value.deployment);
      OnlyAtRest(objects0, c.objects, DeploymentRef(cr));
      OnlyAtRest(maps0, c.atlasMaps, cr.Key());
    } else {
      return cr, Some(got.error);
    }
  }
}
