# AtlasMap operator reconciliation, modelled in Dafny

This project models the reconciliation core of the AtlasMap operator, a
Kubernetes operator written in Go. For each `AtlasMap` custom resource the
operator keeps a set of child objects in line with the resource's spec:
- a Service;
- a Route on OpenShift or an Ingress elsewhere;
- a Deployment;
- on OpenShift 4.3 and later, a cluster-scoped ConsoleLink.

It also writes the resource's status: URL, image and phase.

The model covers three layers:
- **The reconciler.** It fetches the resource named by a request and runs the actions in order: the Service action, then the Route action on OpenShift or the Ingress action elsewhere, then the Deployment action, and last the ConsoleLink action on OpenShift 4.3 and later. The first error ends the pass. A conflict requeues the request without an error. A missing resource only has its console link removed.
- **The actions.** Each one reads its child, creates it when it is missing, and otherwise brings the fields it owns back in line. The Deployment action also moves the replica count in either direction, following a version annotation, and reports the phase.
- **The helpers.** Labels, the image and its tag, the probe path chosen by the AtlasMap version, the ConsoleLink name and text, the Ingress host, the OpenShift version decision, and the resource limits and requests.

The cluster is a class, `ClusterApi.Cluster`, with these parts:
- one map of custom resources and one of child objects;
- a revision counter, which every successful write advances and whose value becomes the written object's resource version;
- a table of injected failures per verb and kind.

The store checks what the API server checks:
- AlreadyExists on a duplicate create;
- NotFound on a missing update or delete target;
- Conflict on a stale resource version;
- the status subresource: a spec update keeps the stored status, and a status update keeps the rest.

A successful write returns the stored object, as the Go client copies the response back into the caller's object. Each action is a module-level method that takes the cluster `c: Cluster` as a parameter and may modify it. It keeps the store invariant `Sound`: every object lives at its own address, and every Deployment has an annotation map. On success it leaves the in-memory resource `Coherent` with the stored one. From there it reaches a convergence predicate, and a child that is already converged is left untouched.

Files:
- `wrappers`, `errors`, `meta`, `types`, `config`, `objects`, `cluster`: data model and store.
- `strings`: the Go standard-library string routines the helpers use.
- `util`, `util_examples`: `controllers/util`.
- `action_utils`: shared action helpers.
- `resources`: `controllers/resources`.
- `action`: shared action code.
- `action_service`, `action_route`, `action_ingress`, `action_deployment`, `action_consolelink`: one file per action.
- `controller`: the reconciler.

## Model

| member | source | states |
|---|---|---|
| AtlasMapTypes.ParsePhase | api/v1alpha1/atlasmap_types.go:70-80 | a parsed phase has exactly the given name |
| AtlasMapTypes.PhaseNameRoundTrip | api/v1alpha1/atlasmap_types.go:70-80 | every phase parses back from its name |
| AtlasMapTypes.CpuAdmittedIff | api/v1alpha1/atlasmap_types.go:19-27 | the unanchored CPU pattern `[0-9]+m?$` admits a string exactly when it ends in a digit, or in a digit and `m` |
| AtlasMapTypes.MemoryAdmittedIff | api/v1alpha1/atlasmap_types.go:22-30 | the unanchored memory pattern admits a string exactly when it ends in digits with an optional unit letter and optional `i` |
| AtlasMapTypes.CpuPatternUnanchoredAtStart | api/v1alpha1/atlasmap_types.go:20-21 | the pattern has no start anchor: `x500m` is admitted and `500mx` is not |
| Util.GetIngressHostNameFor | controllers/util/utils.go:84-91 | the host is `spec.routeHostName` when set, and `<name>-<namespace>` otherwise |
| Util.ImageNameParts | controllers/util/utils.go:93-96 | an image reference is the repository, one `:`, then the tag |
| Util.ImageNameSplits | controllers/util/utils.go:93-96 | a repository without `:` splits back off the reference as its first part |
| Util.ConsoleLinkName | controllers/util/utils.go:98-101 | the link name is the resource name, a dash, then the namespace |
| Util.ConsoleLinkTextShape | controllers/util/utils.go:103-112 | the link text starts with "AtlasMap - "; the rest has no dash, no space at either end, and is no longer than the name |
| Util.ClusterVersion | controllers/util/utils.go:38-72 | a missing ClusterVersion API means version 3; every other failure means no version |
| Util.IsOpenShift43Plus | controllers/util/utils.go:74-82 | true exactly when a version is known and it satisfies ">= 4.3": a release at least 4.3.0 |
| Util.OpenShift43PlusByVersion | controllers/util/utils.go:74-82 | ">= 4.3" holds exactly for a release with a major above 4, or major 4 with minor at least 3; the patch never matters, and a prerelease such as 4.6.0-rc.1 never qualifies |
| Util.OpenShift3IsNot43Plus | controllers/util/utils.go:54-61 | a cluster without the version API, or one whose version is unknown, is not 4.3+ |
| UtilExamples.ConsoleLinkTextTestName | controllers/util/utils_test.go:39-45 | the text for `test-name` is "AtlasMap - Test Name" |
| UtilExamples.ConsoleLinkTextExampleSuffix | controllers/util/utils_test.go:47-48 | the text for `example-atlasmap` is "AtlasMap - Example" |
| UtilExamples.ConsoleLinkTextExamplePrefix | controllers/util/utils_test.go:50-51 | the text for `atlasmap-example` is "AtlasMap - Example" |
| UtilExamples.ConsoleLinkTextExampleBoth | controllers/util/utils_test.go:53-54 | the text for `atlasmap-example-atlasmap` is "AtlasMap - Example" |
| UtilExamples.IngressHostNameTest | controllers/util/utils_test.go:12-22 | `test-name` in `test-namespace` without a host name gets the Ingress host `test-name-test-namespace` |
| UtilExamples.ImageNameTest | controllers/util/utils_test.go:24-27 | `docker.io/test/image` tagged `1.2.3` is `docker.io/test/image:1.2.3` |
| UtilExamples.ConsoleLinkNameTest | controllers/util/utils_test.go:29-37 | `test-name` in `test-namespace` gets the ConsoleLink name `test-name-test-namespace` |
| ActionUtils.AtlasMapVersion | controllers/action/action_utils.go:32-37 | the version is never empty: it is `spec.version` when set, and the default "latest" otherwise |
| ActionUtils.AtlasMapLabels | controllers/action/action_utils.go:17-23 | exactly three labels: the name, the AtlasMap version and the operator version |
| ActionUtils.AtlasMapImage | controllers/action/action_utils.go:25-30 | both branches give the default repository tagged with the AtlasMap version |
| ActionUtils.AtlasMapImageSplits | controllers/action/action_utils.go:25-30 | the image splits into the default repository followed by the parts of the version |
| ActionUtils.AtlasMapProbePath | controllers/action/action_utils.go:39-60 | the result is one of the two health paths; Spring Boot 1 or an error needs a dot in the version; every error is a number that failed to parse |
| ActionUtils.ProbePathOfRelease | controllers/action/action_utils.go:39-60 | a version `major.minor[.rest]` selects Spring Boot 1 exactly when major is 1 and minor is below 43; later parts are ignored |
| ActionUtils.ProbePathWithoutDot | controllers/action/action_utils.go:41-43 | a version without a dot selects Spring Boot 2 |
| ActionUtils.ProbePathBadMajor | controllers/action/action_utils.go:44-47 | a first part that is not an integer is the error returned |
| ActionUtils.ProbePathBadMinor | controllers/action/action_utils.go:48-52 | after an integer first part, a second part that is not an integer is the error returned |
| ActionUtils.ProbePathExample1_42 | controllers/action/action_utils.go:54-56 | "1.42.3" selects the Spring Boot 1 path |
| ActionUtils.ProbePathExample1_43 | controllers/action/action_utils.go:54-59 | "1.43" selects the Spring Boot 2 path |
| ActionUtils.ProbePathTagExamples | controllers/action/action_utils.go:39-60 | "latest" selects Spring Boot 2; "abc.def" fails on "abc"; "1.x" fails on "x" |
| ActionUtils.DefaultImageExample | controllers/action/action_utils.go:25-28 | an empty version gives `docker.io/atlasmap/atlasmap:latest` and the Spring Boot 2 path |
| Resources.FirstInvalid | controllers/resources/resources.go:13-46 | no error exactly when every field is accepted; otherwise the error names the first rejected field |
| Resources.FirstInvalidOfFields | controllers/resources/resources.go:13-46 | the four fields are checked in the source's order: limit CPU, limit memory, request CPU, request memory |
| Resources.DescribedUniquely | controllers/resources/resources.go:9-52 | the spec strings determine the limits and requests lists completely |
| Resources.ConfigureResources | controllers/resources/resources.go:9-52 | the error is the first rejected field and the container keeps its resources; on success, both lists hold exactly the non-empty fields, parsed |
| Resources.ResourceListQuantityChanged | controllers/resources/resources.go:68-103 | accepted exactly when both strings parse; then true exactly when CPU or memory differs from the string's quantity, where an absent entry or empty string counts as zero; otherwise the walk order's first rejected string is the error |
| Resources.ResourceListChanged | controllers/resources/resources.go:54-66 | accepted exactly when all four fields parse; then true exactly when the container's resources are out of date with the spec |
| Resources.ConfiguredIsCurrent | controllers/resources/resources.go:9-103 | resources configured from a spec compare as up to date with it, so one update settles them |
| Resources.EmptyComparesAsZero | controllers/resources/resources.go:76-98 | an empty string compares equal to a stored zero, though configuring from it would leave the entry out |
| Resources.CanonicalComparison | controllers/resources/resources.go:98 | strings with the same canonical quantity compare the same |
| ActionBase.ActionKind.Name | controllers/action/action.go:77-79 | each action has exactly the name it is built with: Service, Route, Ingress, Deployment or ConsoleLink |
| ActionBase.NewOperatorActions | controllers/action/action.go:37-65 | exactly the list Service, then Route on OpenShift or Ingress elsewhere, then Deployment, followed by ConsoleLink exactly on OpenShift 4.3+; a failed detection counts as not OpenShift |
| ActionBase.OwnerRefusalCases | controllers/action/action.go:81-86 | setting the controller reference is refused exactly for an unregistered kind or an object another controller owns; NotRegistered exactly for the unregistered kind; an object this AtlasMap owns is accepted again |
| ActionBase.Owned | controllers/action/action.go:81-86 | setting the controller reference changes only the controller field |
| ActionBase.DeployResource | controllers/action/action.go:81-86 | a refused owner reference is returned and nothing is created; otherwise the create's outcome, with the object owned |
| ActionBase.UpdatePhase | controllers/action/action.go:88-96 | the in-memory phase is set; only a change is written; a refused write is swallowed and changes nothing |
| ServiceActions.AtlasMapService | controllers/action/action_service.go:42-64 | the Service template has the resource's name, namespace and labels, no controller, type ClusterIP, selects by the labels, and exposes port 8585 as `http` |
| ServiceActions.Handle | controllers/action/action_service.go:25-64 | an existing Service is left alone; a missing one is created as the owned template; other read errors are returned with no write |
| RouteActions.AtlasMapRoute | controllers/action/action_route.go:69-98 | the Route template has the resource's name, namespace and labels, the resource as controller, the spec's host, targets the Service of the resource's name, and terminates TLS at the edge |
| RouteActions.RouteTemplateOwned | controllers/action/action_route.go:69-98 | the Route template already names its owner, so setting it fails only for an unregistered kind |
| RouteActions.ReconcileRoute | controllers/action/action_route.go:51-67 | success leaves the stored host equal to the spec's and the status URL pointing at the host of the stored Route; a refused host update is the error, with nothing written; an undisturbed store lets it succeed; a converged Route writes nothing; only the Route and the resource are touched |
| RouteActions.Handle | controllers/action/action_route.go:28-98 | a missing Route is created from the template (host from `spec.routeHostName`, the resource's Service as target, edge TLS) whenever the kind is registered and the create is accepted, and nothing is written otherwise; AlreadyExists counts as success and every other create error is returned; the URL is left alone on that pass; an existing Route is reconciled; other read errors are returned |
| IngressActions.AtlasMapIngress | controllers/action/action_ingress.go:49-77 | the Ingress template has the resource's name, namespace and labels, no controller, a default backend to the resource's Service on the port named `port`, 8585, and one rule whose host GetIngressHostNameFor chooses |
| IngressActions.ReconcileIngress | controllers/action/action_ingress.go:79-98 | an Ingress without exactly one rule is left alone; success leaves the rule's host chosen and the URL pointing at it; a refused host update is the error, with nothing written; an undisturbed store lets it succeed; a converged Ingress writes nothing |
| IngressActions.Handle | controllers/action/action_ingress.go:29-77 | a missing Ingress is created, and every create error is returned; an existing one is reconciled, and succeeds in an undisturbed store; other read errors are returned |
| ConsoleLinkActions.GetAtlasMapRoute | controllers/action/action_consolelink.go:106-116 | a missing Route becomes an empty one; other read errors are returned; otherwise the stored Route |
| ConsoleLinkActions.ReconcileConsoleLink | controllers/action/action_consolelink.go:64-85 | one update exactly when the target or the text differs, with both set as they should be |
| ConsoleLinkActions.DashboardLink | controllers/action/action_consolelink.go:87-104 | the link is cluster-scoped under the given name, carries the labels and no controller, points at the Route's host with the link text, and shows on the namespace dashboard of the resource's namespace only |
| ConsoleLinkActions.CreateLink | controllers/action/action_consolelink.go:43-47 | the dashboard link for the Route's host is created; the create error is returned |
| ConsoleLinkActions.DeleteAndReconcile | controllers/action/action_consolelink.go:49-57 | when the delete goes through, the link is gone, and the pass succeeds exactly when the link already needed no change; when the delete is refused, that error is dropped and the outcome is the reconcile's: the refusal of the link update when href or text differ, success otherwise |
| ConsoleLinkActions.RefreshLink | controllers/action/action_consolelink.go:48-58 | a resource not being deleted gets a converged link on success, and its error is exactly the refusal of the link update when href or text differ, none otherwise; the same holds after a refused delete; a converged link is not written |
| ConsoleLinkActions.SyncLink | controllers/action/action_consolelink.go:40-58 | only the link is touched; a missing link is created for the Route and the create error returned; another read error is dropped with no write; an existing link ends converged unless the resource is being deleted, with the link update's refusal as the error exactly when href or text differ, and a converged one is not written; a deleted link makes the pass succeed exactly when it needed no change |
| ConsoleLinkActions.Handle | controllers/action/action_consolelink.go:28-62 | a detection error is returned; off OpenShift nothing happens; a Route read error is returned; a missing link is created, with the create refusal as the error; an existing one is refreshed, with the link update's refusal as the error exactly when href or text differ from the Route found and the link text, unless a delete went through; another link read error is swallowed |
| ConsoleLinkActions.RemoveConsoleLink | controllers/action/action_consolelink.go:118-132 | a missing link is success; other read errors are returned; an existing link is deleted and the delete's error returned |
| DeploymentActions.AtlasMapDeployment | controllers/action/action_deployment.go:97-161 | the Deployment template has the resource's key and labels, no controller, the annotation naming the resource's version and the spec's count, selects and labels its pods by the labels, runs one AtlasMap container, and has no ready pods |
| DeploymentActions.DeployingIsHalfway | controllers/action/action_deployment.go:189-195 | Undeployed means both counts are zero, Deployed means both are positive, and Deploying means exactly one is zero |
| DeploymentActions.SyncReplicas | controllers/action/action_deployment.go:164-181 | when the annotation names the resource's version, a differing Deployment count is copied into the spec; otherwise a differing spec count is pushed with the annotation; equal counts write nothing |
| DeploymentActions.ReportPhase | controllers/action/action_deployment.go:183-195 | a failed re-read is returned; otherwise the phase implied by the stored counts is set, and a refused write is swallowed |
| DeploymentActions.ReconcileReplicas | controllers/action/action_deployment.go:163-198 | success leaves the spec count equal to the Deployment's and the phase implied by its counts; in an undisturbed store it succeeds, so a differing count is always synced; a Deployment in line with the resource writes nothing |
| DeploymentActions.Reimage | controllers/action/action_deployment.go:201-224 | the update sets the image and both probe paths on the first container; the rest of the Deployment stays |
| DeploymentActions.ReplaceImage | controllers/action/action_deployment.go:201-224 | the same image writes nothing; a differing one needs a probe path, whose error is returned, and then one update |
| DeploymentActions.ReportImage | controllers/action/action_deployment.go:226-231 | a differing status image is written, and a refused write is returned |
| DeploymentActions.ReconcileImage | controllers/action/action_deployment.go:200-233 | success leaves the resource's image on the container and in the status; in an undisturbed store it succeeds whenever a probe path is available for a changed image; an image already in both places writes nothing |
| DeploymentActions.ReplaceResources | controllers/action/action_deployment.go:242-248 | the update puts the given resources on the first container and keeps everything else |
| DeploymentActions.ReconcileResources | controllers/action/action_deployment.go:235-252 | a rejected quantity is returned; up-to-date resources write nothing; outdated ones are replaced by one update; success leaves them up to date |
| DeploymentActions.Restamp | controllers/action/action_deployment.go:262-266 | the update sets the version annotation and keeps the containers and counts |
| DeploymentActions.UpdateResourceVersion | controllers/action/action_deployment.go:254-269 | a failed read of the resource is returned; an annotation that does not name the stored version is set to it; success against a coherent resource leaves the Deployment in pull mode |
| DeploymentActions.ReconcileContainer | controllers/action/action_deployment.go:66-77 | success leaves the image in both places and the resources up to date, with the counts and annotations kept; in an undisturbed store, with quantities that parse and a probe path for a changed image, it succeeds |
| DeploymentActions.ReconcileRest | controllers/action/action_deployment.go:66-82 | starting from matching counts and phase, success leaves the Deployment in line with the resource; in an undisturbed store, with quantities that parse and a probe path for a changed image, it succeeds |
| DeploymentActions.Converge | controllers/action/action_deployment.go:58-82 | success leaves the Deployment in line with the resource; the spec changes only by the pulled count; in an undisturbed store, with quantities that parse and a probe path for a changed image, it succeeds, so every due write is made; a Deployment already in line writes nothing |
| DeploymentActions.TemplateInLine | controllers/action/action_deployment.go:97-161 | a created Deployment is in pull mode with the spec's count, selects its own pods, and runs the resource's image, probe path and resources |
| DeploymentActions.BuildDeployment | controllers/action/action_deployment.go:43-53 | a probe-path error, or the first rejected quantity, is returned; otherwise the configured template |
| DeploymentActions.CreateDeployment | controllers/action/action_deployment.go:43-57 | a build error writes nothing; otherwise the owned template is created, or the owner or create error is returned |
| DeploymentActions.Handle | controllers/action/action_deployment.go:40-95 | a missing Deployment gets the probe-path error, else the first rejected quantity, else the owner refusal or the create refusal, with nothing written on any error, and is created otherwise; an existing one is converged, succeeds in an undisturbed store when its resource allows it, and an already converged one writes nothing; other read errors are returned |
| Controller.ActionOutcome | controllers/atlasmap_controller.go:101-107 | requeue exactly on a conflict; an error is returned exactly for any other failure |
| Controller.Placeholder | controllers/atlasmap_controller.go:83-86 | the stand-in resource has the request's name and namespace |
| Controller.Run | controllers/action/action.go:21-24 | each action keeps the store sound; on success it hands on a resource coherent with the store under the same key; it writes at most its own child and the resource, removes no child but the console link, leaves the Service, Ingress or Deployment stored, and converges a child it found; with nothing left to do it succeeds and writes nothing |
| Controller.RunActions | controllers/atlasmap_controller.go:100-109 | no error exactly when all actions ran; the children of the actions that succeeded are stored; only the children of the actions up to the failing one were written, so the actions after it did nothing; with nothing left for any action to do, all succeed and nothing is written |
| Controller.Reconcile | controllers/atlasmap_controller.go:71-112 | a fetch error other than NotFound is returned with no write; a missing resource removes the link on OpenShift 4.3+ and does nothing elsewhere; for a fetched one the outcome is ActionOutcome of the error RunActions returns (a conflict requeues without an error, any other error is returned), with the frame of RunActions; a settled cluster gets a quiet pass with no write |

## Left out

- I/O, clients and configuration are not modelled:
  - The API round trips, discovery, the ClusterVersion lookup and the scheme are inputs in `ActionBase.Env` or the cluster's fault table.
  - A fault stands for every server-side failure, including a concurrent writer.
  - Logging, `printVersion`, `SetupWithManager` and `GetEnvVar` are not modelled.
  - The watch set is not modelled.
- Semantic-version parsing is not modelled. The lookup's outcome is an input, either a parsed version or one of two failures. The model keeps the ">= 4.3" check: the release parts are compared, and a prerelease never satisfies the constraint.
- The quantity grammar of `resource.ParseQuantity` is not modelled. `Resources.QuantityParser` stands in for it: any deterministic partial function with `"0"` parsed as `"0"`. This is `Env.Valid`, which the Deployment action and the reconciler require.
- `Resources.ResourceListQuantityChanged`: Go walks the two-entry map in unspecified order. The order is a parameter, and it matters only for which error is reported.
- TypeMeta, image pull policy, probe delays and thresholds are not modelled. Nor are the probes' port and scheme, or fields the controller never reads.
- Concurrency and the work queue are not modelled. Requeue is only a flag of `Controller.Outcome`.
- The in-memory resource is a value handed from action to action. It is not a shared pointer. Aliasing is therefore not modelled, including `Replicas: &atlasMap.Spec.Replicas` in the Deployment template.
- `ClusterApi.Cluster.DeploymentsAnnotated` is an invariant, not a checked dynamic case. Every stored Deployment has annotations, so the push branch of reconcileReplicas, which writes into the map without creating it, never meets a nil map. A Deployment created outside the operator without annotations, which would panic there, is not modelled.
- Nil pointers are not modelled. Replica counts are always present, and a Get that succeeds yields an object.
- ConsoleLink `Handle`: a link read that fails with an error other than NotFound falls through both branches. The action then returns success without touching the link. The model follows the code.
- `RouteActions.ReconcileRoute` does not state which error is returned when the status write is refused. `IngressActions.ReconcileIngress` doesn't either. Both state that nothing else changes, that success converges, and that an undisturbed store (`ActionBase.Undisturbed`: no injected fault) lets them succeed.
- `DeploymentActions.ReconcileReplicas` does not name the error it returns when one of its steps fails; each step names its own. It states progress instead: in an undisturbed store (`ActionBase.Undisturbed`: no injected fault) it succeeds, so a differing count is always synced and the phase reported.
- `DeploymentActions.ReconcileImage` does not name the error it returns when one of its steps fails; each step names its own. It states progress instead: in an undisturbed store (`ActionBase.Undisturbed`: no injected fault) it succeeds whenever a probe path is available for a changed image.
- `DeploymentActions.ReconcileContainer` does not name the error it returns when one of its steps fails; each step names its own. It states progress instead: in an undisturbed store (`ActionBase.Undisturbed`: no injected fault), with quantities that parse and a probe path for a changed image (`DeploymentActions.Convergible`), it succeeds.
- `DeploymentActions.ReconcileRest` does not name the error it returns when one of its steps fails; each step names its own. It states progress instead: in an undisturbed store (`ActionBase.Undisturbed`: no injected fault), with `DeploymentActions.Convergible`, it succeeds.
- `DeploymentActions.Converge` does not name the error it returns when one of its steps fails; each step names its own. It states progress instead: in an undisturbed store (`ActionBase.Undisturbed`: no injected fault), with `DeploymentActions.Convergible`, it succeeds, and success leaves the Deployment in line.
- `DeploymentActions.Handle`: on an existing Deployment it does not name the error it returns; it states progress as `Converge` does. On a missing one every error is named.
- `DeploymentActions.ReconcileImage` is three members: `ReplaceImage` (the Deployment part), `ReportImage` (the status part) and `ReconcileImage`, which composes the two.
- The controller's own `removeConsoleLink` (controllers/atlasmap_controller.go:146-161) does the same as the action's `RemoveConsoleLink`. `ConsoleLinkActions.RemoveConsoleLink` models both.
- `Controller.Run`, `Controller.RunActions`, `Controller.Reconcile`: the error an action returns is not tied to the dispatched action's own statement of its errors, which each action's `Handle` makes where it can (the Deployment action's existing branch states only progress, see above); so neither the error RunActions returns nor the outcome Reconcile maps from it is pinned to a particular error. It states that the failure came after `ran` successes, that no later action wrote anything, and that nothing fails when nothing is left to do.
- `Controller.RunActions` does not state that a child converged by an earlier action is still converged after the later ones. It states only that the child is still stored, and that a later action writes only its own child and the resource.
- `RouteActions.ReconcileRoute`: the store keeps the host a Route update carries. An API server that assigns a host to a Route whose spec leaves it empty, and keeps it when an update clears it, is not modelled. On such a server, with an empty `spec.routeHostName`, the URL points at the assigned host, and every pass would update the Route again.
- `GoStrings.ToLower`, `GoStrings.Title`: case mapping covers ASCII letters only. Kubernetes object names are lower-case ASCII, so no name the controller meets is affected.
- `Util.SemVer`: the version string's grammar and build metadata are not modelled. Build metadata plays no part in the ">= 4.3" check.
