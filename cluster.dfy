/**
 * An abstract, in-memory cluster store standing in for the Kubernetes API
 * server: a map from (kind, namespace, name) to object, injectable NotFound /
 * Conflict / other errors per key and operation, and a log of every call made
 * against it, so that "nothing was read" and "no write happened" can be stated.
 */
module Cluster {
  import opened Wrappers
  import opened Objects

  datatype Kind = FrontendPageKind | ServiceKind | ConfigMapKind | DeploymentKind

  datatype Key = Key(kind: Kind, namespace: string, name: string)

  datatype Error = NotFound | AlreadyExists | Conflict | Other(message: string)

  /** The objects the store holds, tagged by kind. */
  datatype Object =
    | PageObj(page: FrontendPage)
    | ServiceObj(service: Service)
    | ConfigMapObj(configMap: ConfigMap)
    | DeploymentObj(deployment: Deployment)
  {
    function KindOf(): Kind {
      match this
      case PageObj(_) => FrontendPageKind
      case ServiceObj(_) => ServiceKind
      case ConfigMapObj(_) => ConfigMapKind
      case DeploymentObj(_) => DeploymentKind
    }

    function Meta(): ObjectMeta {
      match this
      case PageObj(p) => p.meta
      case ServiceObj(s) => s.meta
      case ConfigMapObj(c) => c.meta
      case DeploymentObj(d) => d.meta
    }

    /** The object as the server stores it when it is written in namespace `ns`. */
    function InNamespace(ns: string): (o: Object)
      ensures o.KindOf() == KindOf() && o.Meta() == Meta().(namespace := ns)
    {
      match this
      case PageObj(p) => PageObj(p.(meta := p.meta.(namespace := ns)))
      case ServiceObj(s) => ServiceObj(s.(meta := s.meta.(namespace := ns)))
      case ConfigMapObj(c) => ConfigMapObj(c.(meta := c.meta.(namespace := ns)))
      case DeploymentObj(d) => DeploymentObj(d.(meta := d.meta.(namespace := ns)))
    }
  }

  function KeyOf(o: Object): Key {
    Key(o.KindOf(), o.Meta().namespace, o.Meta().name)
  }

  /** One call made against the store, successful or not. */
  datatype Call =
    | GetCall(key: Key)
    | CreateCall(key: Key)
    | UpdateCall(key: Key)
    | DeleteCall(key: Key)
    | ListCall(kind: Kind, namespace: string)
  {
    predicate IsWrite() {
      CreateCall? || UpdateCall? || DeleteCall?
    }
  }

  /** Errors the store returns instead of serving a call, per operation and key. */
  datatype Faults = Faults(
    get: map<Key, Error>,
    create: map<Key, Error>,
    update: map<Key, Error>,
    delete: map<Key, Error>,
    list: Option<Error>)

  datatype State = State(objects: map<Key, Object>, faults: Faults, calls: seq<Call>)

  /**
   * Decoding a fetched object into the typed struct the caller passed to Get;
   * an object of another kind is a decoding error.
   */
  const KindMismatch := Other("stored object has a different kind")

  function AsPage(r: Result<Object, Error>): (p: Result<FrontendPage, Error>)
    ensures p.Success? ==> r == Success(PageObj(p.value))
    ensures r.Failure? ==> p == Failure(r.error)
  {
    match r
    case Failure(e) => Failure(e)
    case Success(o) => if o.PageObj? then Success(o.page) else Failure(KindMismatch)
  }

  function AsService(r: Result<Object, Error>): (p: Result<Service, Error>)
    ensures p.Success? ==> r == Success(ServiceObj(p.value))
    ensures r.Failure? ==> p == Failure(r.error)
  {
    match r
    case Failure(e) => Failure(e)
    case Success(o) => if o.ServiceObj? then Success(o.service) else Failure(KindMismatch)
  }

  function AsConfigMap(r: Result<Object, Error>): (p: Result<ConfigMap, Error>)
    ensures p.Success? ==> r == Success(ConfigMapObj(p.value))
    ensures r.Failure? ==> p == Failure(r.error)
  {
    match r
    case Failure(e) => Failure(e)
    case Success(o) => if o.ConfigMapObj? then Success(o.configMap) else Failure(KindMismatch)
  }

  function AsDeployment(r: Result<Object, Error>): (p: Result<Deployment, Error>)
    ensures p.Success? ==> r == Success(DeploymentObj(p.value))
    ensures r.Failure? ==> p == Failure(r.error)
  {
    match r
    case Failure(e) => Failure(e)
    case Success(o) => if o.DeploymentObj? then Success(o.deployment) else Failure(KindMismatch)
  }

  /** Every object is stored under its own kind, namespace and name. */
  ghost predicate Consistent(objects: map<Key, Object>) {
    forall k | k in objects :: KeyOf(objects[k]) == k
  }

  /** Outside kind `kind`, map `b` holds exactly what `a` holds. */
  ghost predicate OnlyKindChanged(a: map<Key, Object>, b: map<Key, Object>, kind: Kind) {
    && (forall k | k in a && k.kind != kind :: k in b && b[k] == a[k])
    && (forall k | k in b && k.kind != kind :: k in a)
  }

  /** No call in `calls` is a Create, Update or Delete. */
  ghost predicate NoWrites(calls: seq<Call>) {
    forall i | 0 <= i < |calls| :: !calls[i].IsWrite()
  }

  datatype Reply<T> = Reply(result: T, state: State)

  function Logged(s: State, c: Call): State {
    s.(calls := s.calls + [c])
  }

  function GetOn(s: State, k: Key): (r: Reply<Result<Object, Error>>)
    ensures r.state == Logged(s, GetCall(k))
    ensures r.result.Success? ==> k in s.objects && r.result.value == s.objects[k]
  {
    if k in s.faults.get then Reply(Failure(s.faults.get[k]), Logged(s, GetCall(k)))
    else if k in s.objects then Reply(Success(s.objects[k]), Logged(s, GetCall(k)))
    else Reply(Failure(NotFound), Logged(s, GetCall(k)))
  }

  function CreateOn(s: State, ns: string, o: Object): (r: Reply<Option<Error>>)
    ensures r.state.faults == s.faults
    ensures OnlyKindChanged(s.objects, r.state.objects, o.KindOf())
    ensures r.state.calls == s.calls + [CreateCall(KeyOf(o.InNamespace(ns)))]
    ensures r.state.objects == if r.result.None? then s.objects[KeyOf(o.InNamespace(ns)) := o.InNamespace(ns)] else s.objects
    ensures Consistent(s.objects) ==> Consistent(r.state.objects)
  {
    var stored := o.InNamespace(ns);
    var k := KeyOf(stored);
    var logged := Logged(s, CreateCall(k));
    if k in s.faults.create then Reply(Some(s.faults.create[k]), logged)
    else if k in s.objects then Reply(Some(AlreadyExists), logged)
    else Reply(None, logged.(objects := s.objects[k := stored]))
  }

  function UpdateOn(s: State, ns: string, o: Object): (r: Reply<Option<Error>>)
    ensures r.state.faults == s.faults
    ensures OnlyKindChanged(s.objects, r.state.objects, o.KindOf())
    ensures r.state.calls == s.calls + [UpdateCall(KeyOf(o.InNamespace(ns)))]
    ensures r.state.objects == if r.result.None? then s.objects[KeyOf(o.InNamespace(ns)) := o.InNamespace(ns)] else s.objects
    ensures Consistent(s.objects) ==> Consistent(r.state.objects)
  {
    var stored := o.InNamespace(ns);
    var k := KeyOf(stored);
    var logged := Logged(s, UpdateCall(k));
    if k in s.faults.update then Reply(Some(s.faults.update[k]), logged)
    else if k !in s.objects then Reply(Some(NotFound), logged)
    else Reply(None, logged.(objects := s.objects[k := stored]))
  }

  function DeleteOn(s: State, k: Key): (r: Reply<Option<Error>>)
    ensures r.state.faults == s.faults
    ensures OnlyKindChanged(s.objects, r.state.objects, k.kind)
    ensures r.state.calls == s.calls + [DeleteCall(k)]
    ensures r.state.objects == if r.result.None? then s.objects - {k} else s.objects
    ensures Consistent(s.objects) ==> Consistent(r.state.objects)
  {
    var logged := Logged(s, DeleteCall(k));
    if k in s.faults.delete then Reply(Some(s.faults.delete[k]), logged)
    else if k !in s.objects then Reply(Some(NotFound), logged)
    else Reply(None, logged.(objects := s.objects - {k}))
  }

  /**
   * `items` lists the FrontendPages of namespace `ns` held in `objects`, each exactly
   * once; the order is the server's and is left open.
   */
  ghost predicate IsPageListing(objects: map<Key, Object>, ns: string, items: seq<FrontendPage>) {
    && (forall i | 0 <= i < |items| ::
          Key(FrontendPageKind, ns, items[i].meta.name) in objects
          && objects[Key(FrontendPageKind, ns, items[i].meta.name)] == PageObj(items[i]))
    && (forall i, j | 0 <= i < j < |items| :: items[i].meta.name != items[j].meta.name)
    && (forall k | k in objects && k.kind == FrontendPageKind && k.namespace == ns ::
          exists i :: 0 <= i < |items| && items[i].meta.name == k.name)
  }

  /** Enumerates the FrontendPages of namespace `ns` held in `m`, one key at a time. */
  method PagesIn(m: map<Key, Object>, ns: string) returns (items: seq<FrontendPage>)
    requires Consistent(m)
    ensures IsPageListing(m, ns, items)
  {
    var keys := set k | k in m && k.kind == FrontendPageKind && k.namespace == ns;
    var rest := keys;
    items := [];
    while rest != {}
      invariant rest <= keys
      invariant forall i | 0 <= i < |items| ::
        Key(FrontendPageKind, ns, items[i].meta.name) in keys - rest
        && m[Key(FrontendPageKind, ns, items[i].meta.name)] == PageObj(items[i])
      invariant forall i, j | 0 <= i < j < |items| :: items[i].meta.name != items[j].meta.name
      invariant forall k | k in keys - rest :: exists i :: 0 <= i < |items| && items[i].meta.name == k.name
      decreases rest
    {
      var k :| k in rest;
      assert KeyOf(m[k]) == k;
      var page := m[k].page;
      assert page.meta.name == k.name;
      ghost var prev := items;
      items := items + [page];
      forall k' | k' in keys - (rest - {k})
        ensures exists i :: 0 <= i < |items| && items[i].meta.name == k'.name
      {
        if k' == k {
          assert items[|prev|].meta.name == k'.name;
        } else {
          var i :| 0 <= i < |prev| && prev[i].meta.name == k'.name;
          assert items[i] == prev[i];
        }
      }
      rest := rest - {k};
    }
  }

  /** The cluster store the clients talk to. */
  class Store {
    var objects: map<Key, Object>
    var calls: seq<Call>
    const faults: Faults

    function Current(): State
      reads this
    {
      State(objects, faults, calls)
    }

    ghost predicate Valid()
      reads this
    {
      Consistent(objects)
    }

    constructor (objects: map<Key, Object>, faults: Faults)
      requires Consistent(objects)
      ensures Valid() && Current() == State(objects, faults, [])
    {
      this.objects := objects;
      this.faults := faults;
      this.calls := [];
    }

    method Get(k: Key) returns (r: Result<Object, Error>)
      requires Valid()
      modifies this
      ensures Valid()
      ensures Reply(r, Current()) == GetOn(old(Current()), k)
    {
      if k in faults.get {
        r := Failure(faults.get[k]);
      } else if k in objects {
        r := Success(objects[k]);
      } else {
        r := Failure(NotFound);
      }
      calls := calls + [GetCall(k)];
    }

    method Create(ns: string, o: Object) returns (err: Option<Error>)
      requires Valid()
      modifies this
      ensures Valid()
      ensures Reply(err, Current()) == CreateOn(old(Current()), ns, o)
    {
      var stored := o.InNamespace(ns);
      var k := KeyOf(stored);
      if k in faults.create {
        err := Some(faults.create[k]);
      } else if k in objects {
        err := Some(AlreadyExists);
      } else {
        err := None;
        objects := objects[k := stored];
      }
      calls := calls + [CreateCall(k)];
    }

    method Update(ns: string, o: Object) returns (err: Option<Error>)
      requires Valid()
      modifies this
      ensures Valid()
      ensures Reply(err, Current()) == UpdateOn(old(Current()), ns, o)
    {
      var stored := o.InNamespace(ns);
      var k := KeyOf(stored);
      if k in faults.update {
        err := Some(faults.update[k]);
      } else if k !in objects {
        err := Some(NotFound);
      } else {
        err := None;
        objects := objects[k := stored];
      }
      calls := calls + [UpdateCall(k)];
    }

    method Delete(k: Key) returns (err: Option<Error>)
      requires Valid()
      modifies this
      ensures Valid()
      ensures Reply(err, Current()) == DeleteOn(old(Current()), k)
    {
      if k in faults.delete {
        err := Some(faults.delete[k]);
      } else if k !in objects {
        err := Some(NotFound);
      } else {
        err := None;
        objects := objects - {k};
      }
      calls := calls + [DeleteCall(k)];
    }

    /** Lists the FrontendPages of namespace `ns`, in an order the store chooses. */
    method ListPages(ns: string) returns (r: Result<seq<FrontendPage>, Error>)
      requires Valid()
      modifies this
      ensures Valid()
      ensures objects == old(objects) && calls == old(calls) + [ListCall(FrontendPageKind, ns)]
      ensures faults.list.Some? ==> r == Failure(faults.list.value)
      ensures faults.list.None? ==> r.Success? && IsPageListing(old(objects), ns, r.value)
    {
      if faults.list.Some? {
        r := Failure(faults.list.value);
      } else {
        var items := PagesIn(objects, ns);
        r := Success(items);
      }
      calls := calls + [ListCall(FrontendPageKind, ns)];
    }
  }
}
