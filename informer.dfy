/**
 * The Deployment shadow informer: its Add, Update and Delete handlers keep
 * one companion ConfigMap per Deployment, named after it and counting its
 * updates, and GetDeploymentsNames reads the Deployment names back out of the
 * informer's cache.
 *
 * Each handler is a method on a live `Store`, proved to leave the store in
 * the state the matching function (`AddHandlerOn`, `UpdateHandlerOn`,
 * `DeleteHandlerOn`) gives; the lemmas are about those functions.
 */
module Informer {
  import opened Wrappers
  import opened Objects
  import opened Cluster
  import opened Decimal

  /** What a watch event carries: an object with metadata, or anything else (a tombstone, say). */
  datatype WatchObject = MetaObject(meta: ObjectMeta) | NonObject

  /** The object's name, or "unknown" when it has no metadata. */
  function GetDeploymentName(obj: WatchObject): (name: string)
    ensures obj.MetaObject? ==> name == obj.meta.name
    ensures obj.NonObject? ==> name == "unknown"
  {
    match obj
    case MetaObject(meta) => meta.name
    case NonObject => "unknown"
  }

  /**
   * The companion ConfigMap. Its metadata carries the name only: the
   * `namespace` argument is not used. `updatedAt` is the formatted wall-clock
   * time, passed in.
   */
  function ConfigMapBuilder(configMapName: string, namespace: string, deploymentName: string, counter: int, updatedAt: string): (cm: ConfigMap)
    ensures cm.meta == NewMeta(configMapName, "")
    ensures cm.data.Keys == {"deploymentName", "updatedAt", "updateCount"}
    ensures cm.data["deploymentName"] == deploymentName
    ensures cm.data["updatedAt"] == updatedAt
    ensures cm.data["updateCount"] == Itoa(counter)
    ensures AtoiOrZero(cm.data["updateCount"]) == counter
  {
    AtoiItoa(counter);
    ConfigMap(NewMeta(configMapName, ""), map[
      "deploymentName" := deploymentName,
      "updatedAt" := updatedAt,
      "updateCount" := Itoa(counter)])
  }

  /** The ConfigMap a handler writes for the Deployment `obj`, with count `counter`. */
  function Companion(obj: WatchObject, namespace: string, counter: int, now: string): ConfigMap {
    ConfigMapBuilder(GetDeploymentName(obj), namespace, GetDeploymentName(obj), counter, now)
  }

  function CompanionKey(namespace: string, obj: WatchObject): Key {
    Key(ConfigMapKind, namespace, GetDeploymentName(obj))
  }

  /** A map entry, or "" when the key is missing, as a Go map index gives. */
  function Lookup(data: map<string, string>, key: string): string {
    if key in data then data[key] else ""
  }

  // ---------------------------------------------------------------------
  // The handlers as functions of the store; their errors are discarded
  // ---------------------------------------------------------------------

  function AddHandlerOn(s: State, namespace: string, obj: WatchObject, now: string): State {
    CreateOn(s, namespace, ConfigMapObj(Companion(obj, namespace, 0, now))).state
  }

  /** The count the companion ConfigMap gets on an update: one more than it held, or 1. */
  function NextCount(cm: ConfigMap): int {
    AtoiOrZero(Lookup(cm.data, "updateCount")) + 1
  }

  function UpdateHandlerOn(s: State, namespace: string, oldObj: WatchObject, newObj: WatchObject, now: string): State
    requires oldObj.MetaObject? && newObj.MetaObject?
  {
    if oldObj.meta.resourceVersion == newObj.meta.resourceVersion then s
    else
      var got := GetOn(s, CompanionKey(namespace, newObj));
      match AsConfigMap(got.result)
      case Failure(_) =>
        CreateOn(got.state, namespace, ConfigMapObj(Companion(newObj, namespace, 0, now))).state
      case Success(existing) =>
        UpdateOn(got.state, namespace, ConfigMapObj(Companion(newObj, namespace, NextCount(existing), now))).state
  }

  function DeleteHandlerOn(s: State, namespace: string, obj: WatchObject): State {
    DeleteOn(s, CompanionKey(namespace, obj)).state
  }

  // ---------------------------------------------------------------------
  // The informer
  // ---------------------------------------------------------------------

  /** The names of the cached objects that have metadata, in cache order. */
  function CachedNames(cache: seq<WatchObject>): seq<string> {
    if cache == [] then []
    else
      var last := cache[|cache| - 1];
      CachedNames(cache[..|cache| - 1]) + (if last.MetaObject? then [last.meta.name] else [])
  }

  class DeploymentInformer {
    const client: Store
    const namespace: string
    /** Whether StartDeploymentInformer has assigned the informer. */
    var started: bool
    /** The informer store's listing, kept by the informer library. */
    var cache: seq<WatchObject>

    constructor (client: Store, namespace: string)
      ensures this.client == client && this.namespace == namespace
      ensures !started && cache == []
    {
      this.client := client;
      this.namespace := namespace;
      started := false;
      cache := [];
    }

    /** The informer is assigned; its cache holds what the library listed. */
    method Start(listed: seq<WatchObject>)
      modifies this
      ensures started && cache == listed
    {
      started := true;
      cache := listed;
    }

    method OnAdd(obj: WatchObject, now: string)
      requires client.Valid()
      modifies client
      ensures client.Valid()
      ensures client.Current() == AddHandlerOn(old(client.Current()), namespace, obj, now)
    {
      var configMap := Companion(obj, namespace, 0, now);
      var _ := client.Create(namespace, ConfigMapObj(configMap));
    }

    method OnUpdate(oldObj: WatchObject, newObj: WatchObject, now: string)
      requires oldObj.MetaObject? && newObj.MetaObject?
      requires client.Valid()
      modifies client
      ensures client.Valid()
      ensures client.Current() == UpdateHandlerOn(old(client.Current()), namespace, oldObj, newObj, now)
    {
      if oldObj.meta.resourceVersion != newObj.meta.resourceVersion {
        var fetched := client.Get(CompanionKey(namespace, newObj));
        var configMapExists := AsConfigMap(fetched);
        if configMapExists.Failure? {
          var configMap := Companion(newObj, namespace, 0, now);
          var _ := client.Create(namespace, ConfigMapObj(configMap));
        } else {
          var counter := AtoiOrZero(Lookup(configMapExists.value.data, "updateCount"));
          counter := counter + 1;
          var configMap := Companion(newObj, namespace, counter, now);
          var _ := client.Update(namespace, ConfigMapObj(configMap));
        }
      }
    }

    method OnDelete(obj: WatchObject)
      requires client.Valid()
      modifies client
      ensures client.Valid()
      ensures client.Current() == DeleteHandlerOn(old(client.Current()), namespace, obj)
    {
      var _ := client.Delete(CompanionKey(namespace, obj));
    }

    /** The cached Deployment names, or none before the informer started. */
    method GetDeploymentsNames() returns (names: seq<string>)
      ensures names == if started then CachedNames(cache) else []
    {
      names := [];
      if !started {
        return;
      }
      var objs := cache;
      var i := 0;
      while i < |objs|
        invariant 0 <= i <= |objs|
        invariant names == CachedNames(objs[..i])
      {
        assert objs[..i + 1][..i] == objs[..i];
        if objs[i].MetaObject? {
          names := names + [objs[i].meta.name];
        }
        i := i + 1;
      }
      assert objs[..i] == objs;
    }
  }

  // ---------------------------------------------------------------------
  // Lemmas
  // ---------------------------------------------------------------------

  /** `names` lists, in order, the names of exactly the cached objects that have metadata. */
  lemma {:induction false} CachedNamesAreObjectNames(cache: seq<WatchObject>)
    ensures |CachedNames(cache)| <= |cache|
    ensures (forall i | 0 <= i < |cache| :: cache[i].MetaObject?) ==>
              |CachedNames(cache)| == |cache|
              && forall i | 0 <= i < |cache| :: CachedNames(cache)[i] == cache[i].meta.name
    ensures (forall i | 0 <= i < |cache| :: cache[i].NonObject?) ==> CachedNames(cache) == []
  {
    if cache != [] {
      var init := cache[..|cache| - 1];
      var last := cache[|cache| - 1];
      CachedNamesAreObjectNames(init);
      assert CachedNames(cache) == CachedNames(init) + (if last.MetaObject? then [last.meta.name] else []);
      if forall i | 0 <= i < |cache| :: cache[i].MetaObject? {
        assert forall i | 0 <= i < |init| :: init[i].MetaObject? by {
          forall i | 0 <= i < |init| ensures init[i].MetaObject? {
            assert init[i] == cache[i];
          }
        }
        assert last.MetaObject?;
        forall i | 0 <= i < |cache| ensures CachedNames(cache)[i] == cache[i].meta.name {
          if i < |init| {
            assert CachedNames(cache)[i] == CachedNames(init)[i];
            assert init[i] == cache[i];
          }
        }
      }
      if forall i | 0 <= i < |cache| :: cache[i].NonObject? {
        assert forall i | 0 <= i < |init| :: init[i].NonObject? by {
          forall i | 0 <= i < |init| ensures init[i].NonObject? {
            assert init[i] == cache[i];
          }
        }
        assert last.NonObject?;
      }
    }
  }

  /**
   * The names of two cache segments one after the other are the names of
   * the first followed by those of the second; a single object contributes
   * its name when it has metadata and nothing otherwise.
   */
  lemma {:induction false} CachedNamesAppend(a: seq<WatchObject>, b: seq<WatchObject>)
    ensures CachedNames(a + b) == CachedNames(a) + CachedNames(b)
    ensures |b| == 1 ==> CachedNames(b) == if b[0].MetaObject? then [b[0].meta.name] else []
    decreases |b|
  {
    if b == [] {
      assert a + b == a;
    } else {
      var init := b[..|b| - 1];
      var last := b[|b| - 1];
      CachedNamesAppend(a, init);
      var ab := a + b;
      assert ab[..|ab| - 1] == a + init;
      assert ab[|ab| - 1] == last;
      assert CachedNames(ab) == CachedNames(a + init) + (if last.MetaObject? then [last.meta.name] else []);
      if |b| == 1 {
        assert init == [];
      }
    }
  }

  /** A name is listed exactly when some cached object with metadata carries it. */
  lemma {:induction false} CachedNameMembership(cache: seq<WatchObject>, x: string)
    ensures x in CachedNames(cache) <==>
              exists i | 0 <= i < |cache| :: cache[i].MetaObject? && cache[i].meta.name == x
  {
    if cache != [] {
      var init := cache[..|cache| - 1];
      var last := cache[|cache| - 1];
      CachedNameMembership(init, x);
      assert CachedNames(cache) == CachedNames(init) + (if last.MetaObject? then [last.meta.name] else []);
      if x in CachedNames(cache) {
        if x in CachedNames(init) {
          var i :| 0 <= i < |init| && init[i].MetaObject? && init[i].meta.name == x;
          assert cache[i] == init[i];
        } else {
          assert cache[|cache| - 1] == last;
        }
      } else {
        forall i | 0 <= i < |cache| && cache[i].MetaObject?
          ensures cache[i].meta.name != x
        {
          if i < |init| {
            assert cache[i] == init[i];
          }
        }
      }
    }
  }

  /** A handler's discarded error changes nothing but the call log. */
  ghost predicate OnlyLogged(s: State, t: State) {
    t.objects == s.objects && t.faults == s.faults && |t.calls| > |s.calls| && t.calls[..|s.calls|] == s.calls
  }

  /**
   * On add, the companion ConfigMap is created in the informer's namespace,
   * named after the Deployment, with count "0"; if the store refuses, only
   * the call is logged.
   */
  lemma AddCreatesCompanion(s: State, namespace: string, obj: WatchObject, now: string)
    requires Consistent(s.objects)
    ensures var t := AddHandlerOn(s, namespace, obj, now);
      var k := CompanionKey(namespace, obj);
      && t.calls == s.calls + [CreateCall(k)]
      && (k !in s.faults.create && k !in s.objects ==>
            && t.objects == s.objects[k := t.objects[k]]
            && t.objects[k].ConfigMapObj?
            && t.objects[k].configMap.meta.namespace == namespace
            && t.objects[k].configMap.data["deploymentName"] == GetDeploymentName(obj)
            && t.objects[k].configMap.data["updateCount"] == "0")
      && (k in s.faults.create || k in s.objects ==> OnlyLogged(s, t))
  {
    AtoiItoa(0);
  }

  /** An update that keeps the resource version reads and writes nothing. */
  lemma SameVersionUpdateIsIgnored(s: State, namespace: string, oldObj: WatchObject, newObj: WatchObject, now: string)
    requires oldObj.MetaObject? && newObj.MetaObject?
    requires oldObj.meta.resourceVersion == newObj.meta.resourceVersion
    ensures UpdateHandlerOn(s, namespace, oldObj, newObj, now) == s
  {
  }

  /**
   * An update with a new resource version re-creates a companion the store
   * cannot serve (on any Get error) with count "0", and otherwise replaces
   * the existing one so that its count is one more than the stored count,
   * a missing or non-numeric count reading as 0.
   */
  lemma NewVersionUpdate(s: State, namespace: string, oldObj: WatchObject, newObj: WatchObject, now: string)
    requires Consistent(s.objects)
    requires oldObj.MetaObject? && newObj.MetaObject?
    requires oldObj.meta.resourceVersion != newObj.meta.resourceVersion
    ensures var t := UpdateHandlerOn(s, namespace, oldObj, newObj, now);
      var k := CompanionKey(namespace, newObj);
      && t.faults == s.faults
      && (k in s.faults.get || k !in s.objects ==>
            && t.calls == s.calls + [GetCall(k), CreateCall(k)]
            && (k !in s.faults.create && k !in s.objects ==>
                  t.objects == s.objects[k := ConfigMapObj(Companion(newObj, namespace, 0, now).(meta := NewMeta(k.name, namespace)))]))
      && (k !in s.faults.get && k in s.objects ==>
            && t.calls == s.calls + [GetCall(k), UpdateCall(k)]
            && s.objects[k].ConfigMapObj?
            && (k !in s.faults.update ==>
                  && t.objects == s.objects[k := ConfigMapObj(Companion(newObj, namespace, NextCount(s.objects[k].configMap), now).(meta := NewMeta(k.name, namespace)))]
                  && t.objects[k].ConfigMapObj?
                  && AtoiOrZero(t.objects[k].configMap.data["updateCount"])
                     == AtoiOrZero(Lookup(s.objects[k].configMap.data, "updateCount")) + 1))
  {
    var k := CompanionKey(namespace, newObj);
    if k in s.objects {
      assert KeyOf(s.objects[k]) == k;
    }
  }

  /**
   * Counting: starting from a companion whose count is `n`, a healthy store
   * holds count Itoa(n + 1) after the next update, and a companion whose
   * count was not a number restarts at "1".
   */
  lemma UpdateIncrementsCount(s: State, namespace: string, oldObj: WatchObject, newObj: WatchObject, now: string, n: int)
    requires Consistent(s.objects)
    requires oldObj.MetaObject? && newObj.MetaObject?
    requires oldObj.meta.resourceVersion != newObj.meta.resourceVersion
    requires CompanionKey(namespace, newObj) in s.objects
    requires CompanionKey(namespace, newObj) !in s.faults.get && CompanionKey(namespace, newObj) !in s.faults.update
    requires s.objects[CompanionKey(namespace, newObj)].ConfigMapObj?
    requires AtoiOrZero(Lookup(s.objects[CompanionKey(namespace, newObj)].configMap.data, "updateCount")) == n
    ensures var t := UpdateHandlerOn(s, namespace, oldObj, newObj, now);
      t.objects[CompanionKey(namespace, newObj)].configMap.data["updateCount"] == Itoa(n + 1)
  {
    NewVersionUpdate(s, namespace, oldObj, newObj, now);
  }

  /**
   * The handler compares only the event's own two resource versions and
   * keeps no record of versions it has seen: the same event delivered twice
   * to a healthy store counts twice.
   */
  lemma RedeliveredUpdateCountsTwice(s: State, namespace: string, oldObj: WatchObject, newObj: WatchObject, now: string, n: int)
    requires Consistent(s.objects)
    requires oldObj.MetaObject? && newObj.MetaObject?
    requires oldObj.meta.resourceVersion != newObj.meta.resourceVersion
    requires CompanionKey(namespace, newObj) in s.objects
    requires CompanionKey(namespace, newObj) !in s.faults.get && CompanionKey(namespace, newObj) !in s.faults.update
    requires s.objects[CompanionKey(namespace, newObj)].ConfigMapObj?
    requires AtoiOrZero(Lookup(s.objects[CompanionKey(namespace, newObj)].configMap.data, "updateCount")) == n
    ensures var t := UpdateHandlerOn(UpdateHandlerOn(s, namespace, oldObj, newObj, now), namespace, oldObj, newObj, now);
      var k := CompanionKey(namespace, newObj);
      && k in t.objects && t.objects[k].ConfigMapObj?
      && "updateCount" in t.objects[k].configMap.data
      && t.objects[k].configMap.data["updateCount"] == Itoa(n + 2)
  {
    var k := CompanionKey(namespace, newObj);
    var t := UpdateHandlerOn(s, namespace, oldObj, newObj, now);
    NewVersionUpdate(s, namespace, oldObj, newObj, now);
    UpdateIncrementsCount(s, namespace, oldObj, newObj, now, n);
    assert Consistent(t.objects);
    AtoiItoa(n + 1);
    assert Lookup(t.objects[k].configMap.data, "updateCount") == Itoa(n + 1);
    NewVersionUpdate(t, namespace, oldObj, newObj, now);
    UpdateIncrementsCount(t, namespace, oldObj, newObj, now, n + 1);
  }

  /** On delete, the companion named after the object (or "unknown") is deleted, and nothing else. */
  lemma DeleteRemovesCompanion(s: State, namespace: string, obj: WatchObject)
    ensures var t := DeleteHandlerOn(s, namespace, obj);
      var k := CompanionKey(namespace, obj);
      && t.calls == s.calls + [DeleteCall(k)]
      && t.objects == (if k in s.faults.delete then s.objects else s.objects - {k})
      && (k !in s.faults.delete ==> k !in t.objects)
  {
  }

  /**
   * The handlers' discarded errors do not carry over: after a refused write
   * the store holds what it held, so the next event is handled as if the
   * refused call had not been made.
   */
  lemma RefusedWriteLeavesObjects(s: State, namespace: string, obj: WatchObject, now: string)
    requires CompanionKey(namespace, obj) in s.faults.create
    ensures OnlyLogged(s, AddHandlerOn(s, namespace, obj, now))
    ensures AddHandlerOn(AddHandlerOn(s, namespace, obj, now), namespace, obj, now).objects == s.objects
  {
  }
}
