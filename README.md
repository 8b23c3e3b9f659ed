# k8s-controller-tutorial, modelled in Dafny

A model of the core of `k8s-controller-tutorial`, a Kubernetes operator and
CLI. The operator manages a `FrontendPage` custom resource. Each page has a
`content` string, an `image`, a replica count and a port. From these it
derives three owned children:

- a ConfigMap holding the content;
- a Service selecting the page's pods;
- a Deployment that runs the image and mounts the ConfigMap.

The model covers these parts of the system:

- **Desired-state builders** turn a page into its ConfigMap, Service and
  Deployment, including Go's `int32(...)` conversion of the port and the
  replica count.
- **FrontendPage reconciler** is one pass of get, create or update for each
  child, in a fixed order:
  - A Service whose spec differs is replaced.
  - A ConfigMap whose data differs is replaced, and the pass ends asking for
    a requeue.
  - On a Deployment, only the replica count and the first container's image
    are compared and carried over. An update Conflict asks for a requeue
    instead of returning an error.
- **Deployment observer:** an event filter that admits everything, and a
  reconcile that reads the Deployment once and always succeeds.
- **Deployment shadow informer:** its Add, Update and Delete handlers keep
  one companion ConfigMap per Deployment. The ConfigMap counts the
  Deployment's updates as a decimal string. `GetDeploymentsNames` reads the
  informer's cache.
- **Server handler:** `/healthz`, `/deployments` (a JSON array of the cached
  names, written piece by piece) and a greeting on any other path.
- **FrontendPage API:** the flat `FrontendPageDoc`, and the list, create,
  delete and update operations against the configured namespace.
- **CLI helpers:** the nginx Deployment the `create` command submits, and
  the choice between an in-cluster connection and a kubeconfig connection.
- **go-basic user list**, with its `RemoveUser` loop.

The Kubernetes API server is modelled as a `Cluster.Store` object. It holds:

- a map from (kind, namespace, name) to objects;
- a log of the calls made to it;
- a fixed table of faults: per key, the error a Get, Create, Update or
  Delete returns.

Every operation on the cluster store is a method that is proved to end in
the state given by a pure function of the old state, such as `GetOn`,
`ReconcileOn` or `UpdateHandlerOn`. Most lemmas are about those functions.
The other stateful holders are the go-basic `Kubernetes` record, whose
methods change its user list, and the server's `ResponseCtx`, whose body,
status and headers `Server.Handle` writes.

Two behaviours of the reconciler are modelled as the code has them, although
an operator is usually expected to behave otherwise:

- `pkg/ctrl/frontendpage_controller.go:115-117` returns the error of the
  page Get unchanged, NotFound included. So a page deleted before its
  reconcile runs makes the pass fail; the pass does not end quietly.
  `FrontendPageController.PageGetFailureEndsPass` states this.
- `pkg/ctrl/frontendpage_controller.go:167-170` ends the pass with the empty
  result when the ConfigMap's data is already current, before the
  Deployment step runs. So a Deployment whose replicas or image drifted is
  corrected only in a pass where the ConfigMap was just created.
  `FrontendPageController.CurrentConfigMapSkipsDeployment` states this.

## Model

| member | source | states |
|---|---|---|
| Objects.ToInt32 | pkg/ctrl/frontendpage_controller.go:42 | the result lies in int32 range, agrees with the input modulo 2^32, and is the input itself when the input already fits |
| FrontendPageController.BuildConfigMap | pkg/ctrl/frontendpage_controller.go:29-39 | the ConfigMap is named and namespaced like the page, and holds exactly one entry, `content`, with the page's content |
| FrontendPageController.BuildService | pkg/ctrl/frontendpage_controller.go:41-61 | the Service is named like the page, selects exactly `app=<name>`, and has one port `http` whose port and target port are both the int32 of the page's port (the page's port itself when it fits) |
| FrontendPageController.BuildDeployment | pkg/ctrl/frontendpage_controller.go:63-112 | the Deployment is named like the page; its replica count is the int32 of the page's; selector and pod labels are both `app=<name>`; a single container named after the page runs the page's image and mounts volume `content` at `/data`, which is backed by the ConfigMap of the page's name |
| FrontendPageController.ChildrenFitTogether | pkg/ctrl/frontendpage_controller.go:41-112 | the Service selects exactly the pods the Deployment labels; the Deployment's selector matches its template; the mounted volume is the one backed by the page's ConfigMap; all three children share one name and namespace |
| FrontendPageController.ContentOnlyAffectsConfigMap | pkg/ctrl/frontendpage_controller.go:29-112 | two pages differing only in content have the same Service and Deployment, and their ConfigMaps are equal exactly when the contents are |
| FrontendPageController.SetControllerReference | pkg/ctrl/frontendpage_controller.go:121 | stamping succeeds exactly when the FrontendPage kind is registered in the scheme; it then sets the owner to a controller reference naming the page and changes no other metadata |
| FrontendPageController.ServicePhase | pkg/ctrl/frontendpage_controller.go:120-143 | the Service step writes only Service objects, keeps the store consistent, leaves the faults and the earlier calls as they were, and never asks for a requeue with an error |
| FrontendPageController.ConfigMapPhase | pkg/ctrl/frontendpage_controller.go:145-170 | the ConfigMap step writes only ConfigMap objects, keeps the store consistent, and a requeue it asks for carries no error |
| FrontendPageController.CarryForward | pkg/ctrl/frontendpage_controller.go:187-196 | the updated Deployment takes the desired replica count and first image and keeps every other field of the existing one, including the other containers; it equals the existing one exactly when no rollout is needed |
| FrontendPageController.RolloutStep | pkg/ctrl/frontendpage_controller.go:187-204 | an existing Deployment needing no rollout is left alone with Done and no call; a Conflict is never returned as an error; any outcome other than Done writes nothing; only Deployments are written |
| FrontendPageController.DeploymentPhase | pkg/ctrl/frontendpage_controller.go:172-210 | the Deployment step writes only Deployment objects, keeps every Deployment with a container, and a requeue it asks for carries no error |
| FrontendPageController.FromServiceStep | pkg/ctrl/frontendpage_controller.go:120-210 | the rest of a pass from the Service step on keeps the store consistent, never writes a page, only appends calls, and never requeues with an error |
| FrontendPageController.FromConfigMapStep | pkg/ctrl/frontendpage_controller.go:145-210 | the same for the rest of a pass from the ConfigMap step on |
| FrontendPageController.ReconcileOn | pkg/ctrl/frontendpage_controller.go:113-211 | one pass keeps the store consistent and its faults fixed; it makes at least one call, never changes a FrontendPage, and never returns a requeue together with an error |
| FrontendPageController.FrontendPageReconciler.Reconcile | pkg/ctrl/frontendpage_controller.go:113-211 | the method's result, error and new store state are exactly those `ReconcileOn` gives for the old state |
| FrontendPageController.FrontendPageReconciler.ReconcileService | pkg/ctrl/frontendpage_controller.go:120-143 | the Service step on the live store ends as `ServicePhase` of the old state, stopping exactly when the phase stops |
| FrontendPageController.FrontendPageReconciler.ReconcileConfigMap | pkg/ctrl/frontendpage_controller.go:145-170 | the ConfigMap step on the live store ends as `ConfigMapPhase` of the old state |
| FrontendPageController.FrontendPageReconciler.ReconcileDeployment | pkg/ctrl/frontendpage_controller.go:172-210 | the Deployment step, with its `updated` flag, ends as `DeploymentPhase` of the old state |
| FrontendPageController.PageGetFailureEndsPass | pkg/ctrl/frontendpage_controller.go:114-118 | when the page cannot be read, the pass returns that error (NotFound when it is missing) after a single Get and writes nothing |
| FrontendPageController.ServiceStepConverges | pkg/ctrl/frontendpage_controller.go:126-143 | with a healthy store: a missing Service is created from the builder and owned by the page; a differing one gets the built spec and keeps its metadata; an equal one is only read; the pass goes on and the Service is then current |
| FrontendPageController.ServiceGetErrorEndsPass | pkg/ctrl/frontendpage_controller.go:127-130 | a Service Get error other than NotFound ends the pass with that error after two Gets, with nothing written |
| FrontendPageController.ConfigMapGetErrorEndsPass | pkg/ctrl/frontendpage_controller.go:152-155 | a ConfigMap Get error other than NotFound ends the pass with that error after that one Get, with nothing written |
| FrontendPageController.DeploymentGetErrorEndsPass | pkg/ctrl/frontendpage_controller.go:179-182 | a Deployment Get error other than NotFound ends the pass with that error after that one Get, with nothing written |
| FrontendPageController.ConfigMapStepBranches | pkg/ctrl/frontendpage_controller.go:150-170 | a missing ConfigMap is created and the pass continues; stale data is replaced and the pass ends with a requeue; current data ends the pass with the empty result and no write |
| FrontendPageController.DeploymentStepConverges | pkg/ctrl/frontendpage_controller.go:178-209 | a missing Deployment is created from the builder; an existing one is updated to `CarryForward` only when replicas or the first image differ; the step ends with success and a Deployment needing no rollout |
| FrontendPageController.DeploymentUpdateErrorHandling | pkg/ctrl/frontendpage_controller.go:197-204 | a Conflict on the Deployment update gives a requeue with no error, any other update error is returned; either way the store is unchanged |
| FrontendPageController.ServiceWriteErrorEndsPass | pkg/ctrl/frontendpage_controller.go:131-139 | a Service Create or Update that the store refuses ends the pass with that error and writes nothing |
| FrontendPageController.ConfigMapWriteErrorEndsPass | pkg/ctrl/frontendpage_controller.go:157-164 | a ConfigMap Create or Update that the store refuses ends the pass with that error and writes nothing |
| FrontendPageController.DeploymentCreateErrorEndsPass | pkg/ctrl/frontendpage_controller.go:183-185 | a Deployment Create that the store refuses is returned as the error, with nothing written |
| FrontendPageController.UnregisteredSchemeEndsPass | pkg/ctrl/frontendpage_controller.go:120-123 | when the owner reference cannot be stamped, the pass returns an error without a requeue right after reading the page, and writes nothing |
| FrontendPageController.ReconcileConverges | pkg/ctrl/frontendpage_controller.go:113-211 | with a healthy store a pass returns no error and leaves the Service and ConfigMap current; it requeues exactly when the ConfigMap had stale data, returns Done exactly otherwise, and leaves the Deployment current when the ConfigMap was missing |
| FrontendPageController.CurrentConfigMapSkipsDeployment | pkg/ctrl/frontendpage_controller.go:167-170 | when the ConfigMap is already current, the pass ends with Done before reading the Deployment, which stays as it was, whatever drift it has |
| FrontendPageController.SecondPassWritesNothing | pkg/ctrl/frontendpage_controller.go:135-170 | right after any healthy pass, a second pass makes only three Gets, writes nothing, and returns Done |
| FrontendPageController.ConvergedPassWritesNothing | pkg/ctrl/frontendpage_controller.go:135-170 | on a store whose Service and ConfigMap already match the page, a pass makes only three Gets, writes nothing, and returns Done |
| DeploymentController.DeploymentPredicate.Create | pkg/ctrl/deployment_controller.go:47-50 | every create event is admitted |
| DeploymentController.DeploymentPredicate.Update | pkg/ctrl/deployment_controller.go:53-56 | every update event is admitted |
| DeploymentController.DeploymentPredicate.Delete | pkg/ctrl/deployment_controller.go:59-62 | every delete event is admitted |
| DeploymentController.DeploymentPredicate.Generic | pkg/ctrl/deployment_controller.go:65-68 | every generic event is admitted |
| DeploymentController.FilterAdmitsEveryEvent | pkg/ctrl/deployment_controller.go:41-68 | the filter passes every event of every kind to Reconcile |
| DeploymentController.ReconcileOn | pkg/ctrl/deployment_controller.go:22-39 | the reconcile makes exactly one Get of the Deployment, writes nothing, and returns the empty result with no error whether or not the Get failed |
| Decimal.NatDigits | pkg/informer/informer.go:112 | the decimal form of a natural number is all digits, with no leading zero, and has a single digit exactly below 10 |
| Decimal.Itoa | pkg/informer/informer.go:53 | the text is non-empty, starts with a minus sign exactly for a negative number, and is otherwise the shortest decimal digits (no leading zero except "0") |
| Decimal.Atoi | pkg/informer/informer.go:51 | parsing succeeds exactly on an optional sign followed by at least one digit, and then gives the digits' value, negated after `-` |
| Decimal.AtoiOrZero | pkg/informer/informer.go:51 | the ignored-error parse gives the parsed value, or 0 on a syntax error |
| Decimal.AtoiItoa | pkg/informer/informer.go:51-54 | parsing the decimal form of any integer gives that integer back |
| Decimal.NonNumericIsZero | pkg/informer/informer.go:51 | text without digits, such as the empty string of a missing entry, reads as 0 |
| Informer.GetDeploymentName | pkg/informer/informer.go:79-86 | the object's name, or "unknown" when the object has no metadata |
| Informer.ConfigMapBuilder | pkg/informer/informer.go:104-115 | the companion has the given name and no namespace, and exactly three entries: the Deployment name, the timestamp, and the count written as `Itoa(counter)`, which parses back to the counter |
| Informer.DeploymentInformer.Start | pkg/informer/informer.go:28 | the informer is marked started and its cache holds the listed objects |
| Informer.DeploymentInformer.OnAdd | pkg/informer/informer.go:30-35 | the Add handler on the live store ends as `AddHandlerOn` of the old state |
| Informer.DeploymentInformer.OnUpdate | pkg/informer/informer.go:37-60 | the Update handler on the live store ends as `UpdateHandlerOn` of the old state |
| Informer.DeploymentInformer.OnDelete | pkg/informer/informer.go:62-65 | the Delete handler on the live store ends as `DeleteHandlerOn` of the old state |
| Informer.DeploymentInformer.GetDeploymentsNames | pkg/informer/informer.go:88-102 | the names of the cached objects that have metadata, in cache order, and no names before the informer is started |
| Informer.CachedNamesAreObjectNames | pkg/informer/informer.go:93-100 | there are never more names than cached objects; when every object has metadata, name i is object i's name; a cache with no metadata gives no names |
| Informer.CachedNamesAppend | pkg/informer/informer.go:93-100 | the names of two cache segments are the first segment's names followed by the second's; a single object gives its name when it has metadata and nothing otherwise, so in any mixed cache the objects without metadata are skipped and the order is kept |
| Informer.CachedNameMembership | pkg/informer/informer.go:93-100 | a name is listed exactly when some cached object with metadata carries it |
| Informer.AddCreatesCompanion | pkg/informer/informer.go:30-35 | on add, one Create is made for the companion named after the Deployment, in the informer's namespace, with count "0"; a refused create changes nothing but the call log |
| Informer.SameVersionUpdateIsIgnored | pkg/informer/informer.go:42 | an update whose resource version is unchanged makes no call and changes nothing |
| Informer.NewVersionUpdate | pkg/informer/informer.go:42-57 | on a new resource version, a companion the store cannot return (any Get error) is re-created with count "0"; an existing one is replaced by the companion for the new Deployment, stamped `now`, whose count is one more than its parsed count |
| Informer.UpdateIncrementsCount | pkg/informer/informer.go:50-55 | from a companion with count n, a healthy update with a changed resource version leaves count Itoa(n+1) |
| Informer.RedeliveredUpdateCountsTwice | pkg/informer/informer.go:42-57 | only the event's own two versions are compared, so the same changed-version event delivered twice to a healthy store takes count n to Itoa(n+2) |
| Informer.DeleteRemovesCompanion | pkg/informer/informer.go:62-65 | on delete, one Delete is made for the companion, and it removes that key and nothing else unless the store refuses |
| Informer.RefusedWriteLeavesObjects | pkg/informer/informer.go:33 | a create the store refuses is dropped: objects and faults are unchanged, and repeating the event still changes nothing |
| Server.Handle | cmd/server.go:71-101 | the request id header is always set; `/healthz` appends "OK"; `/deployments` sets the JSON content type and status 200 and appends the JSON array of the informer's names; any other path appends the greeting |
| Server.BodyFor | cmd/server.go:75-100 | the body is "OK" exactly on `/healthz`, a bracketed JSON array (the names' array) exactly on `/deployments`, and the greeting exactly on every other path |
| Server.JsonArray | cmd/server.go:86-95 | the body starts with `[` and ends with `]`; it is `[]` exactly when there are no names |
| Server.WriteNames | cmd/server.go:86-95 | the piecewise writes append exactly `[`, the quoted names separated by commas, and `]` to the body |
| Server.JoinSnoc | cmd/server.go:87-94 | appending a name to the list adds a comma only when a name came before it |
| Server.CommasBetweenNames | cmd/server.go:91-93 | for names without commas, the array holds exactly one comma fewer than there are names |
| Server.SmallArrays | cmd/server.go:86-95 | no names give `[]`, and one name gives that name in quotes inside brackets |
| Server.JsonArrayShape | cmd/server.go:86-95 | the body is `[`, then for each name in order its quoted form followed by a comma unless it is last, then `]` |
| FrontendPageApi.DocRoundTrip | pkg/api/frontendpage_api.go:133-144 | a document made into a resource and back is unchanged, and the resource lies in the given namespace |
| FrontendPageApi.PageRoundTrip | pkg/api/frontendpage_api.go:72-79 | a page carrying only a name, a namespace and a spec is rebuilt exactly from its document |
| FrontendPageApi.OverwriteSpec | pkg/api/frontendpage_api.go:238-242 | the updated page has the document's four spec fields and keeps the existing metadata and status; the document's own name is ignored |
| FrontendPageApi.DocsFrom | pkg/api/frontendpage_api.go:71-80 | the list loop yields one document per page, in order, each the page's document |
| FrontendPageApi.FrontendPageApi.ListFrontendPagesRaw | pkg/api/frontendpage_api.go:65-82 | one List call, nothing written; a List error is returned as it is, otherwise the documents of a listing of exactly the namespace's pages |
| FrontendPageApi.FrontendPageApi.CreateFrontendPageRaw | pkg/api/frontendpage_api.go:126-147 | the create on the live store ends as `CreateRawOn` of the old state |
| FrontendPageApi.FrontendPageApi.DeleteFrontendPageRaw | pkg/api/frontendpage_api.go:255-263 | the delete on the live store ends as `DeleteRawOn` of the old state |
| FrontendPageApi.FrontendPageApi.UpdateFrontendPage | pkg/api/frontendpage_api.go:221-248 | the update on the live store ends as `UpdatePageOn` of the old state |
| FrontendPageApi.EmptyNameMakesNoCall | pkg/api/frontendpage_api.go:128-130 | create and delete with an empty name return "name is required" and make no call |
| FrontendPageApi.CreateStoresDoc | pkg/api/frontendpage_api.go:132-146 | a named create makes one Create call for (namespace, name); it succeeds exactly when the key is free and not faulted, and then stores that page and nothing else |
| FrontendPageApi.DeleteRemovesExactly | pkg/api/frontendpage_api.go:255-263 | a named delete makes one Delete call; it succeeds exactly when the page exists and is not faulted, and then removes only that key |
| FrontendPageApi.CreatedDocIsListed | pkg/api/frontendpage_api.go:65-82 | a document that was created comes back from a later list with all five fields equal |
| FrontendPageApi.UpdateOverwritesSpec | pkg/api/frontendpage_api.go:221-248 | a failed Get returns its error with nothing written; otherwise the stored page gets the document's spec and keeps its name, namespace and status, and only that key changes |
| KubernetesFuncs.DeploymentSpecBuilder | cmd/kuberenets_funcs.go:58-93 | the Deployment is named and namespaced as given, with one replica; selector and pod labels are `app=<name>`; one `nginx` container runs `nginx:latest` on port 80 |
| KubernetesFuncs.ChooseKubeConnectionType | cmd/kuberenets_funcs.go:23-47 | there is no error exactly when both a clientset and a config come back; out of cluster with no kubeconfig it fails with "no kubeconfig provided"; the config comes from the in-cluster source or from the kubeconfig path, and the clientset is built from that config |
| KubernetesFuncs.InClusterIgnoresKubeconfig | cmd/kuberenets_funcs.go:27-31 | in cluster, the kubeconfig path makes no difference |
| KubernetesFuncs.OutOfClusterIgnoresInClusterConfig | cmd/kuberenets_funcs.go:32-39 | out of cluster, the in-cluster config makes no difference |
| KubernetesFuncs.ErrorsPassThrough | cmd/kuberenets_funcs.go:27-44 | a config error or a clientset error is returned as it is, with neither result |
| GoBasic.Kubernetes.PrintUsers | cmd/go_basic.go:40-42 | the printed text is `Users: [`, then every user in order, each followed by a single space except the last, then `]`; so it is `Users: []` for no users and ends with the last user followed by `]` |
| GoBasic.SpacedSuffix | cmd/go_basic.go:40-42 | the space-joined rendering of the users from any index on equals the independent piecewise definition `Spaced`: each user in order, a single space after all but the last |
| GoBasic.Kubernetes.AddUser | cmd/go_basic.go:44-46 | the user is appended at the end, the other fields are unchanged, and printing afterwards ends with the new user followed by `]` |
| GoBasic.Kubernetes.RemoveUser | cmd/go_basic.go:48-53 | every entry equal to the user is removed, the others keep their order, and the other fields are unchanged |
| GoBasic.WithoutMembers | cmd/go_basic.go:48-53 | after removal, exactly the entries other than the user remain |
| GoBasic.WithoutAbsent | cmd/go_basic.go:48-53 | removing a user who is not in the list leaves the list unchanged |
| GoBasic.WithoutSingle | cmd/go_basic.go:48-53 | a user present once is cut out at its position, leaving one entry fewer |
| GoBasic.PrintAfterAdd | cmd/go_basic.go:40-46 | printing after an add shows the new user last, after a space, inside `Users: [...]` |
| GoBasic.RemoveUserAsWritten | cmd/go_basic.go:48-53 | the loop as written, over the shared backing array, with None for the slice-bounds panic; a list without the user comes back unchanged |
| GoBasic.AsWrittenAgreesForOneMatch | cmd/go_basic.go:48-53 | the loop as written removes the user correctly when the user occurs at most once |
| GoBasic.AsWrittenPanicsOnTrailingPair | cmd/go_basic.go:48-53 | the loop as written goes past the end of the list for `["u","u"]`, where the intended result is `[]` |
| GoBasic.AsWrittenSkipsAdjacentMatch | cmd/go_basic.go:48-53 | the loop as written leaves `["u","x"]` for `["u","u","x"]`, where the intended result is `["x"]` |

## Left out

- Logging (zerolog and the controller's log lines) produces no state the model keeps and is left out.
- Contexts, cancellation, and the informer factory's resync period, `factory.Start`, `WaitForCacheSync` and `<-ctx.Done()` are runtime machinery. The cache is instead supplied whole through `DeploymentInformer.Start`.
- The controller-runtime manager, leader election, metrics, and the `AddFrontendPageController` and `AddDeploymentController` registrations only wire the reconcilers into the runtime.
- Concurrency is not modelled. Handlers, reconciles and HTTP requests run one at a time on the store.
- `ctrl.SetControllerReference` is modelled abstractly: it stamps a controller reference naming the page, and fails only when the `FrontendPage` kind is not registered in the scheme.
- `reflect.DeepEqual` is structural equality on the modelled fields.
- The store abstracts the API server: every Get reads the current objects, where the manager's client (`mgr.GetClient()` at `pkg/ctrl/frontendpage_controller.go:219`) reads from an informer cache that may lag; and the store fills in no defaulted fields, where a real API server adds defaults to a ServiceSpec that `reflect.DeepEqual` at :135 then compares. `FrontendPageController.SecondPassWritesNothing` and `FrontendPageController.ConvergedPassWritesNothing` hold for this abstract store only.
- The store does not bump `resourceVersion` on writes and does not check optimistic concurrency itself. Conflicts and other errors come from its fault table, which covers every error path.
- Objects are reduced to the fields the core sets or compares. Owner-reference garbage collection (cascading delete) is not modelled.
- FrontendPageController.DeploymentPhase: requires every stored Deployment to have a container. `Containers[0]` in the source would panic on one without containers. The Deployment's `Replicas` pointer is modelled as never nil.
- Decimal.Atoi: does not model the out-of-range error of `strconv.Atoi`, or the wrap-around of Go's int counter after 2^63 - 1 updates.
- `time.Now().Format(time.RFC3339)` is passed in as the `now` string.
- `uuid.New()` is passed in as `requestId`.
- The order of `GetStore().List()` at `pkg/informer/informer.go:93` is unspecified in client-go and may differ between calls. The model takes the listing to be the sequence supplied to `DeploymentInformer.Start`, so "in cache order" in `GetDeploymentsNames` means that fixed sequence. `CachedNameMembership` and the skip of objects without metadata do not depend on the order.
- Informer.UpdateHandlerOn: requires both objects to carry metadata. The source's type assertion `oldObj.(metav1.Object)` panics otherwise.
- The HTTP plumbing of the API is left out: the REST handlers' status codes, JSON encoding and decoding, the JWT and OpenTelemetry middleware, Swagger, and the MCP tool wrappers. The JSON parse failure of the update handler is part of this.
- `GetFrontendPage` and the page listing's HTTP wrapper are left out. They are thin readers over the same Get and List.
- The fasthttp server loop, `ListenAndServe`, and the `server` command's flag handling and start-up sequence are left out. The call `ChooseKubeConnectionType(inCluster, kubeconfig)` at `cmd/server.go:35` is not modelled.
- `GetKubeClient`, `getExistingDeployments` and `deleteDeployment` are left out. They are single client-go calls whose error is logged and returned.
- The `create`, `delete`, `list` and `mcp` commands are not part of this model.
- JSON string escaping is left out. `/deployments` writes names without escaping, as the source does, so a name containing `"` yields invalid JSON.
- `FrontendPageReconciler.Reconcile` is written as three helper methods, one per child, which the main method calls in the source's order.

## Findings

| source | as written | input that shows it | evidently intended | confidence | as-written member | corrected member |
|---|---|---|---|---|---|---|
| cmd/go_basic.go:48-53 | `RemoveUser` ranges over `k.users` while cutting entries out of it in place, so after a cut the next entry shifts into the current index and is never inspected, and the range still visits the original length | `["u","u"]` removing `"u"` slices past the shrunken list and panics; `["u","u","x"]` leaves `["u","x"]` | every entry equal to the user is removed | not executed | GoBasic.RemoveUserAsWritten (GoBasic.AsWrittenPanicsOnTrailingPair, GoBasic.AsWrittenSkipsAdjacentMatch) | GoBasic.Kubernetes.RemoveUser |
