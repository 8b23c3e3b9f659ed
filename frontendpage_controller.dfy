/**
 * The FrontendPage reconciler: three builders that map a page to the
 * ConfigMap, Service and Deployment it owns, and Reconcile, the
 * Get/Create/Update sequence that converges those children, run against the
 * abstract store of module Cluster.
 *
 * `ReconcileOn` is the reconcile pass as a function of the store's state;
 * the method `FrontendPageReconciler.Reconcile` performs the same calls on a
 * live `Store` and is proved to end in exactly the state and outcome that
 * `ReconcileOn` gives. The lemmas at the end are about `ReconcileOn`.
 */
module FrontendPageController {
  import opened Wrappers
  import opened Objects
  import opened Cluster

  /** The namespaced name a reconcile request carries. */
  datatype Request = Request(namespace: string, name: string)

  function KeyFor(kind: Kind, req: Request): Key {
    Key(kind, req.namespace, req.name)
  }

  /** The label that ties the page's Service and Deployment to its pods. */
  function AppLabels(name: string): map<string, string> {
    map["app" := name]
  }

  // ---------------------------------------------------------------------
  // Desired-state builders
  // ---------------------------------------------------------------------

  function BuildConfigMap(page: FrontendPage): (cm: ConfigMap)
    ensures cm.meta == NewMeta(page.meta.name, page.meta.namespace)
    ensures cm.data.Keys == {"content"} && cm.data["content"] == page.spec.content
  {
    ConfigMap(NewMeta(page.meta.name, page.meta.namespace), map["content" := page.spec.content])
  }

  function BuildService(page: FrontendPage): (svc: Service)
    ensures svc.meta == NewMeta(page.meta.name, page.meta.namespace)
    ensures svc.spec.selector.Keys == {"app"} && svc.spec.selector["app"] == page.meta.name
    ensures |svc.spec.ports| == 1 && svc.spec.ports[0].name == "http"
    ensures svc.spec.ports[0].port == svc.spec.ports[0].targetPort == ToInt32(page.spec.port)
    ensures InInt32(page.spec.port) ==> svc.spec.ports[0].port == page.spec.port
  {
    var port := ToInt32(page.spec.port);
    Service(
      NewMeta(page.meta.name, page.meta.namespace),
      ServiceSpec(AppLabels(page.meta.name), [ServicePort("http", port, port)]))
  }

  function BuildDeployment(page: FrontendPage): (d: Deployment)
    ensures d.meta == NewMeta(page.meta.name, page.meta.namespace)
    ensures d.spec.replicas == ToInt32(page.spec.replicas)
    ensures InInt32(page.spec.replicas) ==> d.spec.replicas == page.spec.replicas
    ensures d.spec.matchLabels == d.spec.template.labels
    ensures d.spec.matchLabels.Keys == {"app"} && d.spec.matchLabels["app"] == page.meta.name
    ensures |d.spec.template.spec.containers| == 1
    ensures d.spec.template.spec.containers[0].name == page.meta.name
    ensures d.spec.template.spec.containers[0].image == page.spec.image
    ensures d.spec.template.spec.containers[0].volumeMounts == [VolumeMount("content", "/data")]
    ensures d.spec.template.spec.volumes == [Volume("content", Some(page.meta.name))]
  {
    Deployment(
      NewMeta(page.meta.name, page.meta.namespace),
      DeploymentSpec(
        ToInt32(page.spec.replicas),
        AppLabels(page.meta.name),
        PodTemplate(
          AppLabels(page.meta.name),
          PodSpec(
            [Container(page.meta.name, page.spec.image, [], [VolumeMount("content", "/data")])],
            [Volume("content", Some(page.meta.name))]))))
  }

  /**
   * The three children fit together: the Service selects exactly the pods
   * the Deployment labels, the Deployment's selector matches its own pod
   * template, and its "content" volume is backed by the page's ConfigMap,
   * mounted at /data.
   */
  lemma ChildrenFitTogether(page: FrontendPage)
    ensures BuildService(page).spec.selector == BuildDeployment(page).spec.template.labels
    ensures BuildDeployment(page).spec.matchLabels == BuildDeployment(page).spec.template.labels
    ensures BuildDeployment(page).spec.template.spec.volumes[0].configMap == Some(BuildConfigMap(page).meta.name)
    ensures BuildDeployment(page).spec.template.spec.containers[0].volumeMounts[0].name
         == BuildDeployment(page).spec.template.spec.volumes[0].name
    ensures BuildConfigMap(page).meta == BuildService(page).meta == BuildDeployment(page).meta
  {
  }

  /** Changing only a page's content changes only the ConfigMap it implies. */
  lemma ContentOnlyAffectsConfigMap(p: FrontendPage, q: FrontendPage)
    requires p.meta == q.meta
    requires p.spec.image == q.spec.image && p.spec.replicas == q.spec.replicas && p.spec.port == q.spec.port
    ensures BuildService(p) == BuildService(q) && BuildDeployment(p) == BuildDeployment(q)
    ensures BuildConfigMap(p) == BuildConfigMap(q) <==> p.spec.content == q.spec.content
  {
    if BuildConfigMap(p) == BuildConfigMap(q) {
      assert BuildConfigMap(p).data["content"] == BuildConfigMap(q).data["content"];
    }
  }

  // ---------------------------------------------------------------------
  // Owner references
  // ---------------------------------------------------------------------

  /** The kinds registered in the controller's runtime scheme. */
  datatype Scheme = Scheme(registered: set<string>)

  const PageKindName := "FrontendPage"

  /**
   * Makes `owner` the controller of the object with metadata `meta`. It fails
   * when the owner's kind is not registered in the scheme.
   */
  function SetControllerReference(owner: FrontendPage, meta: ObjectMeta, scheme: Scheme): (r: Result<ObjectMeta, Error>)
    ensures r.Success? <==> PageKindName in scheme.registered
    ensures r.Success? ==> r.value.owner == Some(OwnerRef(PageKindName, owner.meta.name))
    ensures r.Success? ==> r.value.(owner := meta.owner) == meta
  {
    if PageKindName in scheme.registered then
      Success(meta.(owner := Some(OwnerRef(PageKindName, owner.meta.name))))
    else
      Failure(Other("no kind is registered for the type FrontendPage in the scheme"))
  }

  // ---------------------------------------------------------------------
  // Reconcile results
  // ---------------------------------------------------------------------

  /** ctrl.Result: whether the work queue should requeue the key. */
  datatype CtrlResult = CtrlResult(requeue: bool)

  const EmptyResult := CtrlResult(false)

  datatype Outcome = Outcome(result: CtrlResult, err: Option<Error>)

  /** The empty result with no error: converged until the next event. */
  const Done := Outcome(EmptyResult, None)

  /** `Requeue: true` with no error. */
  const RequeueSoon := Outcome(CtrlResult(true), None)

  function Fail(e: Error): Outcome {
    Outcome(EmptyResult, Some(e))
  }

  /** How a reconcile pass ended and the store it left behind. */
  datatype Run = Run(outcome: Outcome, state: State)

  /** A step of the pass either ends it or hands on the store. */
  datatype Phase = Stop(run: Run) | Next(state: State) {
    function StateOf(): State {
      match this
      case Stop(run) => run.state
      case Next(s) => s
    }
  }

  /**
   * What Reconcile needs of an existing Deployment: its pod template has a
   * first container (the code indexes Containers[0] without a check).
   */
  ghost predicate DeploymentsHaveContainers(objects: map<Key, Object>) {
    forall k | k in objects && objects[k].DeploymentObj? ::
      |objects[k].deployment.spec.template.spec.containers| > 0
  }

  ghost predicate Ready(s: State) {
    Consistent(s.objects) && DeploymentsHaveContainers(s.objects)
  }

  /** The FrontendPages themselves are never written. */
  ghost predicate PagesUnchanged(a: map<Key, Object>, b: map<Key, Object>) {
    && (forall k | k in a && k.kind == FrontendPageKind :: k in b && b[k] == a[k])
    && (forall k | k in b && k.kind == FrontendPageKind :: k in a)
  }

  /** A phase that writes only objects of kind `kind` and only appends calls. */
  ghost predicate PhaseFrame(s: State, t: State, kind: Kind) {
    && OnlyKindChanged(s.objects, t.objects, kind)
    && (Consistent(s.objects) ==> Consistent(t.objects))
    && t.faults == s.faults
    && s.calls <= t.calls
  }

  // ---------------------------------------------------------------------
  // The reconcile pass as a function of the store
  // ---------------------------------------------------------------------

  /** Service: create when missing, replace the spec when it differs. */
  function ServicePhase(s: State, scheme: Scheme, req: Request, page: FrontendPage): (r: Phase)
    ensures r.Stop? && r.run.outcome.result.requeue ==> r.run.outcome.err.None?
    ensures PhaseFrame(s, r.StateOf(), ServiceKind)
  {
    match SetControllerReference(page, BuildService(page).meta, scheme)
    case Failure(e) => Stop(Run(Fail(e), s))
    case Success(meta) =>
      var svc := BuildService(page).(meta := meta);
      var got := GetOn(s, KeyFor(ServiceKind, req));
      match AsService(got.result)
      case Failure(e) =>
        if e != NotFound then Stop(Run(Fail(e), got.state))
        else
          var created := CreateOn(got.state, svc.meta.namespace, ServiceObj(svc));
          if created.result.Some? then Stop(Run(Fail(created.result.value), created.state))
          else Next(created.state)
      case Success(existing) =>
        if existing.spec != svc.spec then
          var updated := UpdateOn(got.state, existing.meta.namespace, ServiceObj(existing.(spec := svc.spec)));
          if updated.result.Some? then Stop(Run(Fail(updated.result.value), updated.state))
          else Next(updated.state)
        else
          Next(got.state)
  }

  /**
   * ConfigMap: create when missing and go on; otherwise the pass ends here,
   * with a requeue after replacing stale data, or with the empty result when
   * the data is already current.
   */
  function ConfigMapPhase(s: State, scheme: Scheme, req: Request, page: FrontendPage): (r: Phase)
    ensures r.Stop? && r.run.outcome.result.requeue ==> r.run.outcome.err.None?
    ensures PhaseFrame(s, r.StateOf(), ConfigMapKind)
  {
    match SetControllerReference(page, BuildConfigMap(page).meta, scheme)
    case Failure(e) => Stop(Run(Fail(e), s))
    case Success(meta) =>
      var cm := BuildConfigMap(page).(meta := meta);
      var got := GetOn(s, KeyFor(ConfigMapKind, req));
      match AsConfigMap(got.result)
      case Failure(e) =>
        if e != NotFound then Stop(Run(Fail(e), got.state))
        else
          var created := CreateOn(got.state, cm.meta.namespace, ConfigMapObj(cm));
          if created.result.Some? then Stop(Run(Fail(created.result.value), created.state))
          else Next(created.state)
      case Success(existing) =>
        if existing.data != cm.data then
          var updated := UpdateOn(got.state, existing.meta.namespace, ConfigMapObj(existing.(data := cm.data)));
          if updated.result.Some? then Stop(Run(Fail(updated.result.value), updated.state))
          else Stop(Run(RequeueSoon, updated.state))
        else
          Stop(Run(Done, got.state))
  }

  function PrimaryImage(d: Deployment): string
    requires |d.spec.template.spec.containers| > 0
  {
    d.spec.template.spec.containers[0].image
  }

  function WithPrimaryImage(d: Deployment, image: string): Deployment
    requires |d.spec.template.spec.containers| > 0
  {
    var containers := d.spec.template.spec.containers;
    d.(spec := d.spec.(template := d.spec.template.(spec := d.spec.template.spec.(
      containers := containers[0 := containers[0].(image := image)]))))
  }

  function WithReplicas(d: Deployment, replicas: int): Deployment {
    d.(spec := d.spec.(replicas := replicas))
  }

  /** The two fields the reconciler compares on an existing Deployment. */
  predicate NeedsRollout(existing: Deployment, desired: Deployment)
    requires |existing.spec.template.spec.containers| > 0
    requires |desired.spec.template.spec.containers| > 0
  {
    existing.spec.replicas != desired.spec.replicas || PrimaryImage(existing) != PrimaryImage(desired)
  }

  /**
   * The existing Deployment with the desired replica count and first
   * container image copied in, and every other field as it was.
   */
  function CarryForward(existing: Deployment, desired: Deployment): (d: Deployment)
    requires |existing.spec.template.spec.containers| > 0
    requires |desired.spec.template.spec.containers| > 0
    ensures d.meta == existing.meta
    ensures d.spec.replicas == desired.spec.replicas
    ensures d.spec.matchLabels == existing.spec.matchLabels
    ensures d.spec.template.labels == existing.spec.template.labels
    ensures d.spec.template.spec.volumes == existing.spec.template.spec.volumes
    ensures |d.spec.template.spec.containers| == |existing.spec.template.spec.containers|
    ensures d.spec.template.spec.containers[0]
         == existing.spec.template.spec.containers[0].(image := PrimaryImage(desired))
    ensures forall i | 1 <= i < |d.spec.template.spec.containers| ::
              d.spec.template.spec.containers[i] == existing.spec.template.spec.containers[i]
    ensures d == existing <==> !NeedsRollout(existing, desired)
  {
    var d := WithPrimaryImage(WithReplicas(existing, desired.spec.replicas), PrimaryImage(desired));
    assert d == existing ==> PrimaryImage(d) == PrimaryImage(existing);
    d
  }

  /**
   * Deployment: create when missing; otherwise update only when the replica
   * count or the first image differs. A Conflict on that update asks for a
   * requeue instead of failing.
   */
  function DeploymentPhase(s: State, scheme: Scheme, req: Request, page: FrontendPage): (r: Run)
    requires DeploymentsHaveContainers(s.objects)
    ensures PhaseFrame(s, r.state, DeploymentKind)
    ensures DeploymentsHaveContainers(r.state.objects)
    ensures r.outcome.result.requeue ==> r.outcome.err.None?
  {
    match SetControllerReference(page, BuildDeployment(page).meta, scheme)
    case Failure(e) => Run(Fail(e), s)
    case Success(meta) =>
      var desired := BuildDeployment(page).(meta := meta);
      var got := GetOn(s, KeyFor(DeploymentKind, req));
      match AsDeployment(got.result)
      case Failure(e) =>
        if e != NotFound then Run(Fail(e), got.state)
        else
          var created := CreateOn(got.state, desired.meta.namespace, DeploymentObj(desired));
          if created.result.Some? then Run(Fail(created.result.value), created.state)
          else Run(Done, created.state)
      case Success(existing) => RolloutStep(got.state, existing, desired)
  }

  /** An existing Deployment: update it when a compared field differs; a Conflict asks for a requeue. */
  function RolloutStep(s: State, existing: Deployment, desired: Deployment): (r: Run)
    requires DeploymentsHaveContainers(s.objects)
    requires |existing.spec.template.spec.containers| > 0
    requires |desired.spec.template.spec.containers| > 0
    ensures PhaseFrame(s, r.state, DeploymentKind)
    ensures DeploymentsHaveContainers(r.state.objects)
    ensures r.outcome.result.requeue ==> r.outcome.err.None?
    ensures !NeedsRollout(existing, desired) ==> r == Run(Done, s)
    ensures r.outcome.err.Some? ==> r.outcome.err.value != Conflict
    ensures r.outcome != Done ==> r.state.objects == s.objects
  {
    if NeedsRollout(existing, desired) then
      var updated := UpdateOn(s, existing.meta.namespace, DeploymentObj(CarryForward(existing, desired)));
      match updated.result
      case Some(e) => if e == Conflict then Run(RequeueSoon, updated.state) else Run(Fail(e), updated.state)
      case None => Run(Done, updated.state)
    else
      Run(Done, s)
  }

  /** The frame every part of a pass keeps. */
  ghost predicate PassFrame(s: State, r: Run) {
    && Ready(r.state)
    && r.state.faults == s.faults && s.calls <= r.state.calls
    && PagesUnchanged(s.objects, r.state.objects)
    && (r.outcome.result.requeue ==> r.outcome.err.None?)
  }

  /** One reconcile pass for the FrontendPage that `req` names. */
  function ReconcileOn(s: State, scheme: Scheme, req: Request): (r: Run)
    requires Ready(s)
    ensures Ready(r.state)
    ensures r.state.faults == s.faults && s.calls < r.state.calls
    ensures PagesUnchanged(s.objects, r.state.objects)
    ensures r.outcome.result.requeue ==> r.outcome.err.None?
  {
    var got := GetOn(s, KeyFor(FrontendPageKind, req));
    match AsPage(got.result)
    case Failure(e) => Run(Fail(e), got.state)
    case Success(page) =>
      var r := FromServiceStep(got.state, scheme, req, page);
      PagesUnchangedTrans(s.objects, got.state.objects, r.state.objects);
      r
  }

  /** The pass from the Service step on, once the page has been read. */
  function FromServiceStep(s: State, scheme: Scheme, req: Request, page: FrontendPage): (r: Run)
    requires Ready(s)
    ensures PassFrame(s, r)
  {
    var p1 := ServicePhase(s, scheme, req, page);
    KeepsReady(s.objects, p1.StateOf().objects, ServiceKind);
    match p1
    case Stop(run) => run
    case Next(s1) =>
      var r := FromConfigMapStep(s1, scheme, req, page);
      PagesUnchangedTrans(s.objects, s1.objects, r.state.objects);
      r
  }

  /** The pass from the ConfigMap step on. */
  function FromConfigMapStep(s: State, scheme: Scheme, req: Request, page: FrontendPage): (r: Run)
    requires Ready(s)
    ensures PassFrame(s, r)
  {
    var p2 := ConfigMapPhase(s, scheme, req, page);
    KeepsReady(s.objects, p2.StateOf().objects, ConfigMapKind);
    match p2
    case Stop(run) => run
    case Next(s2) =>
      var r := DeploymentPhase(s2, scheme, req, page);
      KeepsPages(s2.objects, r.state.objects, DeploymentKind);
      PagesUnchangedTrans(s.objects, s2.objects, r.state.objects);
      r
  }

  /** A phase that writes neither Deployments nor pages keeps the store ready and the pages as they were. */
  lemma KeepsReady(a: map<Key, Object>, b: map<Key, Object>, kind: Kind)
    requires kind != DeploymentKind && kind != FrontendPageKind
    requires Consistent(a) && DeploymentsHaveContainers(a)
    requires OnlyKindChanged(a, b, kind) && (Consistent(a) ==> Consistent(b))
    ensures Consistent(b) && DeploymentsHaveContainers(b) && PagesUnchanged(a, b)
  {
    forall k | k in b && b[k].DeploymentObj?
      ensures |b[k].deployment.spec.template.spec.containers| > 0
    {
      assert KeyOf(b[k]) == k;
    }
  }

  lemma KeepsPages(a: map<Key, Object>, b: map<Key, Object>, kind: Kind)
    requires kind != FrontendPageKind && OnlyKindChanged(a, b, kind)
    ensures PagesUnchanged(a, b)
  {
  }

  lemma PagesUnchangedTrans(a: map<Key, Object>, b: map<Key, Object>, c: map<Key, Object>)
    requires PagesUnchanged(a, b) && PagesUnchanged(b, c)
    ensures PagesUnchanged(a, c)
  {
  }

  // ---------------------------------------------------------------------
  // The reconciler against a live store
  // ---------------------------------------------------------------------

  class FrontendPageReconciler {
    const client: Store
    const scheme: Scheme

    constructor (client: Store, scheme: Scheme)
      ensures this.client == client && this.scheme == scheme
    {
      this.client := client;
      this.scheme := scheme;
    }

    /**
     * Reconcile for `req`: fetch the page, then converge its Service,
     * ConfigMap and Deployment in that order. Each child's step is a method
     * of its own below; together they make the same calls as `ReconcileOn`.
     */
    method Reconcile(req: Request) returns (result: CtrlResult, err: Option<Error>)
      requires client.Valid() && DeploymentsHaveContainers(client.objects)
      modifies client
      ensures client.Valid()
      ensures Run(Outcome(result, err), client.Current()) == ReconcileOn(old(client.Current()), scheme, req)
    {
      var fetched := client.Get(KeyFor(FrontendPageKind, req));
      var gotPage := AsPage(fetched);
      if gotPage.Failure? {
        return EmptyResult, Some(gotPage.error);
      }
      var page := gotPage.value;
      ghost var s1 := client.Current();
      var stop;
      stop, result, err := ReconcileService(req, page);
      if stop {
        return;
      }
      KeepsReady(s1.objects, client.objects, ServiceKind);
      ghost var s2 := client.Current();
      stop, result, err := ReconcileConfigMap(req, page);
      if stop {
        return;
      }
      KeepsReady(s2.objects, client.objects, ConfigMapKind);
      result, err := ReconcileDeployment(req, page);
    }

    method ReconcileService(req: Request, page: FrontendPage) returns (stop: bool, result: CtrlResult, err: Option<Error>)
      requires client.Valid()
      modifies client
      ensures client.Valid()
      ensures ServicePhase(old(client.Current()), scheme, req, page)
           == if stop then Stop(Run(Outcome(result, err), client.Current())) else Next(client.Current())
    {
      stop, result, err := true, EmptyResult, None;
      var svcMeta := SetControllerReference(page, BuildService(page).meta, scheme);
      if svcMeta.Failure? {
        return true, EmptyResult, Some(svcMeta.error);
      }
      var svc := BuildService(page).(meta := svcMeta.value);
      var fetched := client.Get(KeyFor(ServiceKind, req));
      var gotService := AsService(fetched);
      if gotService.Failure? {
        if gotService.error != NotFound {
          return true, EmptyResult, Some(gotService.error);
        }
        var e := client.Create(svc.meta.namespace, ServiceObj(svc));
        if e.Some? {
          return true, EmptyResult, e;
        }
      } else {
        var existingService := gotService.value;
        if existingService.spec != svc.spec {
          existingService := existingService.(spec := svc.spec);
          var e := client.Update(existingService.meta.namespace, ServiceObj(existingService));
          if e.Some? {
            return true, EmptyResult, e;
          }
        }
      }
      stop := false;
    }

    method ReconcileConfigMap(req: Request, page: FrontendPage) returns (stop: bool, result: CtrlResult, err: Option<Error>)
      requires client.Valid()
      modifies client
      ensures client.Valid()
      ensures ConfigMapPhase(old(client.Current()), scheme, req, page)
           == if stop then Stop(Run(Outcome(result, err), client.Current())) else Next(client.Current())
    {
      stop, result, err := true, EmptyResult, None;
      var cmMeta := SetControllerReference(page, BuildConfigMap(page).meta, scheme);
      if cmMeta.Failure? {
        return true, EmptyResult, Some(cmMeta.error);
      }
      var cm := BuildConfigMap(page).(meta := cmMeta.value);
      var fetched := client.Get(KeyFor(ConfigMapKind, req));
      var gotConfigMap := AsConfigMap(fetched);
      if gotConfigMap.Failure? {
        if gotConfigMap.error != NotFound {
          return true, EmptyResult, Some(gotConfigMap.error);
        }
        var e := client.Create(cm.meta.namespace, ConfigMapObj(cm));
        if e.Some? {
          return true, EmptyResult, e;
        }
        stop := false;
      } else {
        var existingConfigMap := gotConfigMap.value;
        if existingConfigMap.data != cm.data {
          existingConfigMap := existingConfigMap.(data := cm.data);
          var e := client.Update(existingConfigMap.meta.namespace, ConfigMapObj(existingConfigMap));
          if e.Some? {
            return true, EmptyResult, e;
          }
          return true, CtrlResult(true), None;
        }
        // The data is current: the pass ends here, before the Deployment.
        return true, EmptyResult, None;
      }
    }

    method ReconcileDeployment(req: Request, page: FrontendPage) returns (result: CtrlResult, err: Option<Error>)
      requires client.Valid() && DeploymentsHaveContainers(client.objects)
      modifies client
      ensures client.Valid()
      ensures DeploymentPhase(old(client.Current()), scheme, req, page) == Run(Outcome(result, err), client.Current())
    {
      var depMeta := SetControllerReference(page, BuildDeployment(page).meta, scheme);
      if depMeta.Failure? {
        return EmptyResult, Some(depMeta.error);
      }
      var deployment := BuildDeployment(page).(meta := depMeta.value);
      var fetched := client.Get(KeyFor(DeploymentKind, req));
      var gotDeployment := AsDeployment(fetched);
      if gotDeployment.Failure? {
        if gotDeployment.error != NotFound {
          return EmptyResult, Some(gotDeployment.error);
        }
        var e := client.Create(deployment.meta.namespace, DeploymentObj(deployment));
        if e.Some? {
          return EmptyResult, e;
        }
        return EmptyResult, None;
      }
      var existingDeployment := gotDeployment.value;
      ghost var original := existingDeployment;
      assert |original.spec.template.spec.containers| > 0;
      var updated := false;
      if existingDeployment.spec.replicas != deployment.spec.replicas {
        existingDeployment := WithReplicas(existingDeployment, deployment.spec.replicas);
        updated := true;
      }
      if PrimaryImage(existingDeployment) != PrimaryImage(deployment) {
        existingDeployment := WithPrimaryImage(existingDeployment, PrimaryImage(deployment));
        updated := true;
      }
      assert updated == NeedsRollout(original, deployment);
      assert updated ==> existingDeployment == CarryForward(original, deployment);
      if updated {
        var e := client.Update(existingDeployment.meta.namespace, DeploymentObj(existingDeployment));
        if e.Some? {
          if e.value != Conflict {
            return EmptyResult, e;
          }
          return CtrlResult(true), None;
        }
      }
      return EmptyResult, None;
    }
  }

  // ---------------------------------------------------------------------
  // What a reconcile pass does
  // ---------------------------------------------------------------------

  predicate Registered(scheme: Scheme) {
    PageKindName in scheme.registered
  }

  /** The store serves every Get, Create and Update for the keys `req` names. */
  ghost predicate Healthy(s: State, req: Request) {
    forall kind: Kind ::
      KeyFor(kind, req) !in s.faults.get && KeyFor(kind, req) !in s.faults.create && KeyFor(kind, req) !in s.faults.update
  }

  /** `meta` stamped with `page` as its controlling owner. */
  function Owned(meta: ObjectMeta, page: FrontendPage): ObjectMeta {
    meta.(owner := Some(OwnerRef(PageKindName, page.meta.name)))
  }

  ghost predicate ServiceCurrent(objects: map<Key, Object>, req: Request, page: FrontendPage) {
    var k := KeyFor(ServiceKind, req);
    k in objects && objects[k].ServiceObj? && objects[k].service.spec == BuildService(page).spec
  }

  ghost predicate ConfigMapCurrent(objects: map<Key, Object>, req: Request, page: FrontendPage) {
    var k := KeyFor(ConfigMapKind, req);
    k in objects && objects[k].ConfigMapObj? && objects[k].configMap.data == BuildConfigMap(page).data
  }

  ghost predicate DeploymentCurrent(objects: map<Key, Object>, req: Request, page: FrontendPage) {
    var k := KeyFor(DeploymentKind, req);
    && k in objects && objects[k].DeploymentObj?
    && |objects[k].deployment.spec.template.spec.containers| > 0
    && !NeedsRollout(objects[k].deployment, BuildDeployment(page))
  }

  /** The page `req` names, as the store holds it. */
  ghost function StoredPage(objects: map<Key, Object>, req: Request): (page: FrontendPage)
    requires Consistent(objects) && KeyFor(FrontendPageKind, req) in objects
    ensures objects[KeyFor(FrontendPageKind, req)] == PageObj(page)
    ensures page.meta.name == req.name && page.meta.namespace == req.namespace
  {
    assert KeyOf(objects[KeyFor(FrontendPageKind, req)]) == KeyFor(FrontendPageKind, req);
    objects[KeyFor(FrontendPageKind, req)].page
  }

  /**
   * A failed FrontendPage Get, not-found included, ends the pass with that
   * error and the empty result, before any other call.
   */
  lemma PageGetFailureEndsPass(s: State, scheme: Scheme, req: Request)
    requires Ready(s)
    requires KeyFor(FrontendPageKind, req) in s.faults.get || KeyFor(FrontendPageKind, req) !in s.objects
    ensures var r := ReconcileOn(s, scheme, req);
      var k := KeyFor(FrontendPageKind, req);
      && r.outcome == Fail(if k in s.faults.get then s.faults.get[k] else NotFound)
      && r.state == Logged(s, GetCall(k))
  {
  }

  /**
   * Service step with a healthy store: a missing Service is created from the
   * builder, owned by the page; a Service with another spec gets the built
   * spec and keeps everything else; an equal one is not written. Either way
   * the pass goes on, and only the Service's key changed.
   */
  lemma ServiceStepConverges(s: State, scheme: Scheme, req: Request, page: FrontendPage)
    requires Consistent(s.objects) && Registered(scheme) && Healthy(s, req)
    requires page.meta.name == req.name && page.meta.namespace == req.namespace
    ensures var r := ServicePhase(s, scheme, req, page);
      var k := KeyFor(ServiceKind, req);
      && r.Next?
      && ServiceCurrent(r.state.objects, req, page)
      && r.state.objects == s.objects[k := r.state.objects[k]]
      && (k !in s.objects ==>
            && r.state.objects[k] == ServiceObj(BuildService(page).(meta := Owned(BuildService(page).meta, page)))
            && r.state.calls == s.calls + [GetCall(k), CreateCall(k)])
      && (k in s.objects && !ServiceCurrent(s.objects, req, page) ==>
            && r.state.objects[k] == ServiceObj(s.objects[k].service.(spec := BuildService(page).spec))
            && r.state.calls == s.calls + [GetCall(k), UpdateCall(k)])
      && (ServiceCurrent(s.objects, req, page) ==> r.state == Logged(s, GetCall(k)))
  {
    var k := KeyFor(ServiceKind, req);
    if k in s.objects {
      assert KeyOf(s.objects[k]) == k;
    }
  }

  /**
   * A Service Get that fails with anything but NotFound ends the pass with
   * that error, and nothing is written.
   */
  lemma ServiceGetErrorEndsPass(s: State, scheme: Scheme, req: Request)
    requires Ready(s) && Registered(scheme)
    requires KeyFor(FrontendPageKind, req) in s.objects && KeyFor(FrontendPageKind, req) !in s.faults.get
    requires KeyFor(ServiceKind, req) in s.faults.get && s.faults.get[KeyFor(ServiceKind, req)] != NotFound
    ensures var r := ReconcileOn(s, scheme, req);
      && r.outcome == Fail(s.faults.get[KeyFor(ServiceKind, req)])
      && r.state.objects == s.objects
      && r.state.calls == s.calls + [GetCall(KeyFor(FrontendPageKind, req)), GetCall(KeyFor(ServiceKind, req))]
  {
    var page := StoredPage(s.objects, req);
  }

  /**
   * A ConfigMap Get that fails with anything but NotFound ends the pass with
   * that error after the one Get, and nothing is written.
   */
  lemma ConfigMapGetErrorEndsPass(s: State, scheme: Scheme, req: Request, page: FrontendPage)
    requires Registered(scheme)
    requires KeyFor(ConfigMapKind, req) in s.faults.get && s.faults.get[KeyFor(ConfigMapKind, req)] != NotFound
    ensures var r := ConfigMapPhase(s, scheme, req, page);
      && r.Stop?
      && r.run.outcome == Fail(s.faults.get[KeyFor(ConfigMapKind, req)])
      && r.run.state.objects == s.objects
      && r.run.state.calls == s.calls + [GetCall(KeyFor(ConfigMapKind, req))]
  {
  }

  /**
   * A Deployment Get that fails with anything but NotFound ends the pass
   * with that error after the one Get, and nothing is written.
   */
  lemma DeploymentGetErrorEndsPass(s: State, scheme: Scheme, req: Request, page: FrontendPage)
    requires DeploymentsHaveContainers(s.objects) && Registered(scheme)
    requires KeyFor(DeploymentKind, req) in s.faults.get && s.faults.get[KeyFor(DeploymentKind, req)] != NotFound
    ensures var r := DeploymentPhase(s, scheme, req, page);
      && r.outcome == Fail(s.faults.get[KeyFor(DeploymentKind, req)])
      && r.state.objects == s.objects
      && r.state.calls == s.calls + [GetCall(KeyFor(DeploymentKind, req))]
  {
  }

  /**
   * ConfigMap step with a healthy store: a missing ConfigMap is created and
   * the pass goes on to the Deployment; stale data is replaced and the pass
   * ends asking for a requeue; current data ends the pass with the empty
   * result and no write.
   */
  lemma ConfigMapStepBranches(s: State, scheme: Scheme, req: Request, page: FrontendPage)
    requires Consistent(s.objects) && Registered(scheme) && Healthy(s, req)
    requires page.meta.name == req.name && page.meta.namespace == req.namespace
    ensures var r := ConfigMapPhase(s, scheme, req, page);
      var k := KeyFor(ConfigMapKind, req);
      && ConfigMapCurrent(r.StateOf().objects, req, page)
      && r.StateOf().objects == s.objects[k := r.StateOf().objects[k]]
      && (k !in s.objects ==>
            && r.Next?
            && r.state.objects[k] == ConfigMapObj(BuildConfigMap(page).(meta := Owned(BuildConfigMap(page).meta, page)))
            && r.state.calls == s.calls + [GetCall(k), CreateCall(k)])
      && (k in s.objects && !ConfigMapCurrent(s.objects, req, page) ==>
            && r == Stop(Run(RequeueSoon, r.run.state))
            && r.run.state.objects[k] == ConfigMapObj(s.objects[k].configMap.(data := BuildConfigMap(page).data))
            && r.run.state.calls == s.calls + [GetCall(k), UpdateCall(k)])
      && (ConfigMapCurrent(s.objects, req, page) ==> r == Stop(Run(Done, Logged(s, GetCall(k)))))
  {
    var k := KeyFor(ConfigMapKind, req);
    if k in s.objects {
      assert KeyOf(s.objects[k]) == k;
    }
  }

  /**
   * Deployment step with a healthy store: a missing Deployment is created
   * from the builder; an existing one is updated to `CarryForward` of it only
   * when its replica count or first image differs. The step ends with the
   * empty result and a Deployment that needs no rollout.
   */
  lemma DeploymentStepConverges(s: State, scheme: Scheme, req: Request, page: FrontendPage)
    requires Consistent(s.objects) && DeploymentsHaveContainers(s.objects)
    requires Registered(scheme) && Healthy(s, req)
    requires page.meta.name == req.name && page.meta.namespace == req.namespace
    ensures var r := DeploymentPhase(s, scheme, req, page);
      var k := KeyFor(DeploymentKind, req);
      var desired := BuildDeployment(page).(meta := Owned(BuildDeployment(page).meta, page));
      && r.outcome == Done
      && DeploymentCurrent(r.state.objects, req, page)
      && r.state.objects == s.objects[k := r.state.objects[k]]
      && (k !in s.objects ==>
            && r.state.objects[k] == DeploymentObj(desired)
            && r.state.calls == s.calls + [GetCall(k), CreateCall(k)])
      && (k in s.objects && !DeploymentCurrent(s.objects, req, page) ==>
            && r.state.objects[k] == DeploymentObj(CarryForward(s.objects[k].deployment, desired))
            && r.state.calls == s.calls + [GetCall(k), UpdateCall(k)])
      && (DeploymentCurrent(s.objects, req, page) ==> r.state == Logged(s, GetCall(k)))
  {
    var k := KeyFor(DeploymentKind, req);
    if k in s.objects {
      assert KeyOf(s.objects[k]) == k;
      var existing := s.objects[k].deployment;
      var desired := BuildDeployment(page).(meta := Owned(BuildDeployment(page).meta, page));
      if NeedsRollout(existing, desired) {
        var d := CarryForward(existing, desired);
        assert PrimaryImage(d) == PrimaryImage(desired);
        assert !NeedsRollout(d, BuildDeployment(page));
      }
    }
  }

  /**
   * A Conflict on the Deployment update asks for a requeue with no error and
   * leaves the Deployment as it was; any other update error is returned.
   */
  lemma DeploymentUpdateErrorHandling(s: State, scheme: Scheme, req: Request, page: FrontendPage)
    requires Consistent(s.objects) && DeploymentsHaveContainers(s.objects) && Registered(scheme)
    requires page.meta.name == req.name && page.meta.namespace == req.namespace
    requires KeyFor(DeploymentKind, req) in s.objects && KeyFor(DeploymentKind, req) !in s.faults.get
    requires !DeploymentCurrent(s.objects, req, page)
    requires KeyFor(DeploymentKind, req) in s.faults.update
    ensures var r := DeploymentPhase(s, scheme, req, page);
      var e := s.faults.update[KeyFor(DeploymentKind, req)];
      && r.outcome == (if e == Conflict then RequeueSoon else Fail(e))
      && r.state.objects == s.objects
  {
    assert KeyOf(s.objects[KeyFor(DeploymentKind, req)]) == KeyFor(DeploymentKind, req);
  }

  /**
   * A Create or Update of the Service that the store refuses ends the pass
   * with that error; nothing is written.
   */
  lemma ServiceWriteErrorEndsPass(s: State, scheme: Scheme, req: Request, page: FrontendPage)
    requires Consistent(s.objects) && Registered(scheme)
    requires page.meta.name == req.name && page.meta.namespace == req.namespace
    requires KeyFor(ServiceKind, req) !in s.faults.get
    ensures var r := ServicePhase(s, scheme, req, page);
      var k := KeyFor(ServiceKind, req);
      && (k !in s.objects && k in s.faults.create ==>
            r.Stop? && r.run.outcome == Fail(s.faults.create[k]) && r.run.state.objects == s.objects)
      && (k in s.objects && !ServiceCurrent(s.objects, req, page) && k in s.faults.update ==>
            r.Stop? && r.run.outcome == Fail(s.faults.update[k]) && r.run.state.objects == s.objects)
  {
    var k := KeyFor(ServiceKind, req);
    if k in s.objects {
      assert KeyOf(s.objects[k]) == k;
    }
  }

  /**
   * A Create or Update of the ConfigMap that the store refuses ends the pass
   * with that error; nothing is written.
   */
  lemma ConfigMapWriteErrorEndsPass(s: State, scheme: Scheme, req: Request, page: FrontendPage)
    requires Consistent(s.objects) && Registered(scheme)
    requires page.meta.name == req.name && page.meta.namespace == req.namespace
    requires KeyFor(ConfigMapKind, req) !in s.faults.get
    ensures var r := ConfigMapPhase(s, scheme, req, page);
      var k := KeyFor(ConfigMapKind, req);
      && (k !in s.objects && k in s.faults.create ==>
            r.Stop? && r.run.outcome == Fail(s.faults.create[k]) && r.run.state.objects == s.objects)
      && (k in s.objects && !ConfigMapCurrent(s.objects, req, page) && k in s.faults.update ==>
            r.Stop? && r.run.outcome == Fail(s.faults.update[k]) && r.run.state.objects == s.objects)
  {
    var k := KeyFor(ConfigMapKind, req);
    if k in s.objects {
      assert KeyOf(s.objects[k]) == k;
    }
  }

  /** A Create of the Deployment that the store refuses is returned as the pass's error. */
  lemma DeploymentCreateErrorEndsPass(s: State, scheme: Scheme, req: Request, page: FrontendPage)
    requires Consistent(s.objects) && DeploymentsHaveContainers(s.objects) && Registered(scheme)
    requires page.meta.name == req.name && page.meta.namespace == req.namespace
    requires KeyFor(DeploymentKind, req) !in s.faults.get && KeyFor(DeploymentKind, req) !in s.objects
    requires KeyFor(DeploymentKind, req) in s.faults.create
    ensures var r := DeploymentPhase(s, scheme, req, page);
      r.outcome == Fail(s.faults.create[KeyFor(DeploymentKind, req)]) && r.state.objects == s.objects
  {
  }

  /**
   * When the scheme does not know the FrontendPage kind, stamping the owner
   * reference on the Service fails and the pass returns that error right
   * after reading the page.
   */
  lemma UnregisteredSchemeEndsPass(s: State, scheme: Scheme, req: Request)
    requires Ready(s) && !Registered(scheme)
    requires KeyFor(FrontendPageKind, req) in s.objects && KeyFor(FrontendPageKind, req) !in s.faults.get
    ensures var r := ReconcileOn(s, scheme, req);
      && r.outcome.err.Some? && !r.outcome.result.requeue
      && r.state.objects == s.objects
      && r.state.calls == s.calls + [GetCall(KeyFor(FrontendPageKind, req))]
  {
    var page := StoredPage(s.objects, req);
  }

  /**
   * With a healthy store, one pass leaves the Service and the ConfigMap
   * current. It asks for a requeue exactly when it had to replace stale
   * ConfigMap data; it reaches the Deployment, and leaves it current, exactly
   * when the ConfigMap was missing. The page is never written.
   */
  lemma ReconcileConverges(s: State, scheme: Scheme, req: Request)
    requires Ready(s) && Registered(scheme) && Healthy(s, req)
    requires KeyFor(FrontendPageKind, req) in s.objects
    ensures var r := ReconcileOn(s, scheme, req);
      var page := StoredPage(s.objects, req);
      var cmKey := KeyFor(ConfigMapKind, req);
      && r.outcome.err.None?
      && ServiceCurrent(r.state.objects, req, page)
      && ConfigMapCurrent(r.state.objects, req, page)
      && (r.outcome == RequeueSoon <==> cmKey in s.objects && !ConfigMapCurrent(s.objects, req, page))
      && (r.outcome == Done <==> cmKey !in s.objects || ConfigMapCurrent(s.objects, req, page))
      && (cmKey !in s.objects ==> DeploymentCurrent(r.state.objects, req, page))
  {
    var page := StoredPage(s.objects, req);
    var s0 := Logged(s, GetCall(KeyFor(FrontendPageKind, req)));
    ServiceStepConverges(s0, scheme, req, page);
    var s1 := ServicePhase(s0, scheme, req, page).state;
    KeepsReady(s0.objects, s1.objects, ServiceKind);
    ConfigMapStepBranches(s1, scheme, req, page);
    var p2 := ConfigMapPhase(s1, scheme, req, page);
    if p2.Next? {
      KeepsReady(s1.objects, p2.state.objects, ConfigMapKind);
      DeploymentStepConverges(p2.state, scheme, req, page);
    }
  }

  /**
   * An up-to-date ConfigMap ends the pass before the Deployment is read:
   * the calls are the page Get, the Service step and the ConfigMap Get, the
   * result is empty, and a Deployment that drifted from the page (another
   * replica count or image) stays as it was.
   */
  lemma CurrentConfigMapSkipsDeployment(s: State, scheme: Scheme, req: Request)
    requires Ready(s) && Registered(scheme) && Healthy(s, req)
    requires KeyFor(FrontendPageKind, req) in s.objects
    requires ConfigMapCurrent(s.objects, req, StoredPage(s.objects, req))
    ensures var r := ReconcileOn(s, scheme, req);
      var page := StoredPage(s.objects, req);
      var svcKey := KeyFor(ServiceKind, req);
      var depKey := KeyFor(DeploymentKind, req);
      && r.outcome == Done
      && r.state.calls == s.calls + [GetCall(KeyFor(FrontendPageKind, req)), GetCall(svcKey)]
           + (if ServiceCurrent(s.objects, req, page) then []
              else if svcKey in s.objects then [UpdateCall(svcKey)] else [CreateCall(svcKey)])
           + [GetCall(KeyFor(ConfigMapKind, req))]
      && (depKey in s.objects <==> depKey in r.state.objects)
      && (depKey in s.objects ==> r.state.objects[depKey] == s.objects[depKey])
      && (ServiceCurrent(s.objects, req, page) ==> r.state.objects == s.objects)
  {
    var page := StoredPage(s.objects, req);
    var s0 := Logged(s, GetCall(KeyFor(FrontendPageKind, req)));
    assert ReconcileOn(s, scheme, req) == FromServiceStep(s0, scheme, req, page);
    ServiceStepContinues(s0, scheme, req, page);
    var s1 := ServicePhase(s0, scheme, req, page).state;
    assert FromServiceStep(s0, scheme, req, page) == FromConfigMapStep(s1, scheme, req, page);
    assert Healthy(s1, req) by {
      assert s1.faults == s0.faults;
    }
    assert ConfigMapCurrent(s1.objects, req, page) by {
      assert s1.objects[KeyFor(ConfigMapKind, req)] == s.objects[KeyFor(ConfigMapKind, req)];
    }
    CurrentConfigMapEndsPass(s1, scheme, req, page);
    var svcKey := KeyFor(ServiceKind, req);
    var written := if ServiceCurrent(s.objects, req, page) then []
      else if svcKey in s.objects then [UpdateCall(svcKey)] else [CreateCall(svcKey)];
    assert s1.calls == s.calls + [GetCall(KeyFor(FrontendPageKind, req)), GetCall(svcKey)] + written by {
      assert s0.calls + [GetCall(svcKey)] == s.calls + [GetCall(KeyFor(FrontendPageKind, req)), GetCall(svcKey)];
    }
  }

  /** The Service step on a healthy store, summarised by the calls it makes and the one key it writes. */
  lemma ServiceStepContinues(s: State, scheme: Scheme, req: Request, page: FrontendPage)
    requires Ready(s) && Registered(scheme) && Healthy(s, req)
    requires page.meta.name == req.name && page.meta.namespace == req.namespace
    ensures var r := ServicePhase(s, scheme, req, page);
      var k := KeyFor(ServiceKind, req);
      && r.Next?
      && Ready(r.state)
      && r.state.faults == s.faults
      && r.state.objects == s.objects[k := r.state.objects[k]]
      && r.state.calls == s.calls + [GetCall(k)]
           + (if ServiceCurrent(s.objects, req, page) then []
              else if k in s.objects then [UpdateCall(k)] else [CreateCall(k)])
      && (ServiceCurrent(s.objects, req, page) ==> r.state.objects == s.objects)
  {
    ServiceStepConverges(s, scheme, req, page);
    KeepsReady(s.objects, ServicePhase(s, scheme, req, page).state.objects, ServiceKind);
  }

  /** From the ConfigMap step on, a current ConfigMap ends the pass after one Get. */
  lemma CurrentConfigMapEndsPass(s: State, scheme: Scheme, req: Request, page: FrontendPage)
    requires Ready(s) && Registered(scheme) && Healthy(s, req)
    requires page.meta.name == req.name && page.meta.namespace == req.namespace
    requires ConfigMapCurrent(s.objects, req, page)
    ensures FromConfigMapStep(s, scheme, req, page) == Run(Done, Logged(s, GetCall(KeyFor(ConfigMapKind, req))))
  {
    ConfigMapStepBranches(s, scheme, req, page);
  }

  /**
   * Reconcile is idempotent: after a pass against a healthy store, a second
   * pass ends with the empty result, reads the page, the Service and the
   * ConfigMap, and writes nothing.
   */
  lemma SecondPassWritesNothing(s: State, scheme: Scheme, req: Request)
    requires Ready(s) && Registered(scheme) && Healthy(s, req)
    requires KeyFor(FrontendPageKind, req) in s.objects
    ensures var t := ReconcileOn(s, scheme, req).state;
      var r := ReconcileOn(t, scheme, req);
      && r.outcome == Done
      && r.state.objects == t.objects
      && r.state.calls == t.calls + [GetCall(KeyFor(FrontendPageKind, req)), GetCall(KeyFor(ServiceKind, req)), GetCall(KeyFor(ConfigMapKind, req))]
  {
    var page := StoredPage(s.objects, req);
    ReconcileConverges(s, scheme, req);
    var t := ReconcileOn(s, scheme, req).state;
    assert Healthy(t, req) by {
      assert t.faults == s.faults;
    }
    assert StoredPage(t.objects, req) == page by {
      assert t.objects[KeyFor(FrontendPageKind, req)] == s.objects[KeyFor(FrontendPageKind, req)];
    }
    ConvergedPassWritesNothing(t, scheme, req);
  }

  /** On a store whose Service and ConfigMap are current, a pass only reads. */
  lemma ConvergedPassWritesNothing(t: State, scheme: Scheme, req: Request)
    requires Ready(t) && Registered(scheme) && Healthy(t, req)
    requires KeyFor(FrontendPageKind, req) in t.objects
    requires ServiceCurrent(t.objects, req, StoredPage(t.objects, req))
    requires ConfigMapCurrent(t.objects, req, StoredPage(t.objects, req))
    ensures var r := ReconcileOn(t, scheme, req);
      && r.outcome == Done
      && r.state.objects == t.objects
      && r.state.calls == t.calls + [GetCall(KeyFor(FrontendPageKind, req)), GetCall(KeyFor(ServiceKind, req)), GetCall(KeyFor(ConfigMapKind, req))]
  {
    CurrentConfigMapSkipsDeployment(t, scheme, req);
  }
}
