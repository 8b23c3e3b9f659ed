/**
 * The Deployment observer: an event filter that lets every event through,
 * and a reconcile that reads the Deployment once and reports success
 * whatever the read returned.
 */
module DeploymentController {
  import opened Wrappers
  import opened Objects
  import opened Cluster
  import FrontendPageController

  type Request = FrontendPageController.Request

  datatype CreateEvent = CreateEvent(object: ObjectMeta)
  datatype UpdateEvent = UpdateEvent(objectOld: ObjectMeta, objectNew: ObjectMeta)
  datatype DeleteEvent = DeleteEvent(object: ObjectMeta, deleteStateUnknown: bool)
  datatype GenericEvent = GenericEvent(object: ObjectMeta)

  /** Any event the controller's watch can deliver. */
  datatype Event =
    | Created(create: CreateEvent)
    | Updated(update: UpdateEvent)
    | Deleted(delete: DeleteEvent)
    | Generic(generic: GenericEvent)

  /** The event filter installed with WithEventFilter. */
  datatype DeploymentPredicate = DeploymentPredicate {
    function Create(e: CreateEvent): (admit: bool)
      ensures admit
    {
      true
    }

    function Update(e: UpdateEvent): (admit: bool)
      ensures admit
    {
      true
    }

    function Delete(e: DeleteEvent): (admit: bool)
      ensures admit
    {
      true
    }

    function Generic(e: GenericEvent): (admit: bool)
      ensures admit
    {
      true
    }

    /** How the controller consults the filter for an event. */
    function Admits(e: Event): bool {
      match e
      case Created(c) => Create(c)
      case Updated(u) => Update(u)
      case Deleted(d) => Delete(d)
      case Generic(g) => Generic(g)
    }
  }

  /** The filter drops nothing: every event of every kind reaches Reconcile. */
  lemma FilterAdmitsEveryEvent(p: DeploymentPredicate, e: Event)
    ensures p.Admits(e)
  {
  }

  /**
   * Reconcile for a Deployment: one Get, whose error (of any kind, not only
   * NotFound) is swallowed, and the empty result with no error either way.
   */
  function ReconcileOn(s: State, req: Request): (r: FrontendPageController.Run)
    ensures r.outcome == FrontendPageController.Done
    ensures r.state.objects == s.objects && r.state.faults == s.faults
    ensures r.state.calls == s.calls + [GetCall(Key(DeploymentKind, req.namespace, req.name))]
  {
    var got := GetOn(s, Key(DeploymentKind, req.namespace, req.name));
    match AsDeployment(got.result)
    case Failure(_) => FrontendPageController.Run(FrontendPageController.Done, got.state)
    case Success(_) => FrontendPageController.Run(FrontendPageController.Done, got.state)
  }
}
