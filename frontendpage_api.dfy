/**
 * The FrontendPage CRUD core behind the REST and MCP front ends: the flat
 * document those front ends exchange, its mapping to and from the resource,
 * and the list, create, delete and update operations against the store in
 * the API's configured namespace.
 */
module FrontendPageApi {
  import opened Wrappers
  import opened Objects
  import opened Cluster

  /** The flat view of a page: its name and the four spec fields. */
  datatype FrontendPageDoc = FrontendPageDoc(name: string, content: string, image: string, replicas: int, port: int)

  function ToDoc(page: FrontendPage): FrontendPageDoc {
    FrontendPageDoc(page.meta.name, page.spec.content, page.spec.image, page.spec.replicas, page.spec.port)
  }

  /** The spec a document describes. */
  function SpecOf(doc: FrontendPageDoc): FrontendPageSpec {
    FrontendPageSpec(doc.content, doc.image, doc.replicas, doc.port)
  }

  /** The resource a document creates in `namespace`. */
  function FromDoc(doc: FrontendPageDoc, namespace: string): FrontendPage {
    FrontendPage(NewMeta(doc.name, namespace), SpecOf(doc), [])
  }

  /** No field is lost going from a document to a resource and back. */
  lemma DocRoundTrip(doc: FrontendPageDoc, namespace: string)
    ensures ToDoc(FromDoc(doc, namespace)) == doc
    ensures FromDoc(doc, namespace).meta.namespace == namespace
  {
  }

  /** A resource that carries only a name, a namespace and a spec is rebuilt exactly from its document. */
  lemma PageRoundTrip(page: FrontendPage)
    requires page.meta == NewMeta(page.meta.name, page.meta.namespace) && page.conditions == []
    ensures FromDoc(ToDoc(page), page.meta.namespace) == page
  {
  }

  /**
   * The update step: the four spec fields come from the document; the
   * existing page's metadata (its name and namespace included) and status
   * are kept, and the document's own name is not used.
   */
  function OverwriteSpec(existing: FrontendPage, doc: FrontendPageDoc): (page: FrontendPage)
    ensures page.meta == existing.meta && page.conditions == existing.conditions
    ensures ToDoc(page) == doc.(name := existing.meta.name)
  {
    existing.(spec := existing.spec.(content := doc.content, image := doc.image, replicas := doc.replicas, port := doc.port))
  }

  /** The docs for `items`, one each, in order. */
  function DocsOf(items: seq<FrontendPage>): (docs: seq<FrontendPageDoc>) {
    seq(|items|, i requires 0 <= i < |items| => ToDoc(items[i]))
  }

  /** The conversion loop of the list operation. */
  method DocsFrom(items: seq<FrontendPage>) returns (docs: seq<FrontendPageDoc>)
    ensures |docs| == |items|
    ensures forall i | 0 <= i < |items| :: docs[i] == ToDoc(items[i])
  {
    docs := [];
    for i := 0 to |items|
      invariant |docs| == i
      invariant forall j | 0 <= j < i :: docs[j] == ToDoc(items[j])
    {
      docs := docs + [ToDoc(items[i])];
    }
  }

  const NameRequired := Other("name is required")

  /** Create as a function of the store: an empty name is refused before any call. */
  function CreateRawOn(s: State, namespace: string, doc: FrontendPageDoc): Reply<Option<Error>> {
    if doc.name == "" then Reply(Some(NameRequired), s)
    else CreateOn(s, namespace, PageObj(FromDoc(doc, namespace)))
  }

  /** Delete as a function of the store: an empty name is refused before any call. */
  function DeleteRawOn(s: State, namespace: string, name: string): Reply<Option<Error>> {
    if name == "" then Reply(Some(NameRequired), s)
    else DeleteOn(s, Key(FrontendPageKind, namespace, name))
  }

  /** Update as a function of the store: fetch the page, overwrite its spec, write it back. */
  function UpdatePageOn(s: State, namespace: string, name: string, doc: FrontendPageDoc): Reply<Option<Error>> {
    var got := GetOn(s, Key(FrontendPageKind, namespace, name));
    match AsPage(got.result)
    case Failure(e) => Reply(Some(e), got.state)
    case Success(existing) => UpdateOn(got.state, existing.meta.namespace, PageObj(OverwriteSpec(existing, doc)))
  }

  class FrontendPageApi {
    const client: Store
    const namespace: string

    constructor (client: Store, namespace: string)
      ensures this.client == client && this.namespace == namespace
    {
      this.client := client;
      this.namespace := namespace;
    }

    /**
     * One document per page of the namespace, in the order the store lists
     * them; a List error is returned as it is.
     */
    method ListFrontendPagesRaw() returns (r: Result<seq<FrontendPageDoc>, Error>, ghost listed: seq<FrontendPage>)
      requires client.Valid()
      modifies client
      ensures client.Valid()
      ensures client.objects == old(client.objects)
      ensures client.calls == old(client.calls) + [ListCall(FrontendPageKind, namespace)]
      ensures client.faults.list.Some? ==> r == Failure(client.faults.list.value)
      ensures client.faults.list.None? ==>
                IsPageListing(old(client.objects), namespace, listed) && r == Success(DocsOf(listed))
    {
      listed := [];
      var list := client.ListPages(namespace);
      if list.Failure? {
        return Failure(list.error), listed;
      }
      listed := list.value;
      var docs := DocsFrom(list.value);
      assert docs == DocsOf(listed);
      return Success(docs), listed;
    }

    method CreateFrontendPageRaw(doc: FrontendPageDoc) returns (err: Option<Error>)
      requires client.Valid()
      modifies client
      ensures client.Valid()
      ensures Reply(err, client.Current()) == CreateRawOn(old(client.Current()), namespace, doc)
    {
      if doc.name == "" {
        return Some(NameRequired);
      }
      var page := FromDoc(doc, namespace);
      err := client.Create(namespace, PageObj(page));
    }

    method DeleteFrontendPageRaw(name: string) returns (err: Option<Error>)
      requires client.Valid()
      modifies client
      ensures client.Valid()
      ensures Reply(err, client.Current()) == DeleteRawOn(old(client.Current()), namespace, name)
    {
      if name == "" {
        return Some(NameRequired);
      }
      err := client.Delete(Key(FrontendPageKind, namespace, name));
    }

    method UpdateFrontendPage(name: string, doc: FrontendPageDoc) returns (err: Option<Error>)
      requires client.Valid()
      modifies client
      ensures client.Valid()
      ensures Reply(err, client.Current()) == UpdatePageOn(old(client.Current()), namespace, name, doc)
    {
      var fetched := client.Get(Key(FrontendPageKind, namespace, name));
      var existing := AsPage(fetched);
      if existing.Failure? {
        return Some(existing.error);
      }
      var existingPage := existing.value;
      existingPage := OverwriteSpec(existingPage, doc);
      err := client.Update(existingPage.meta.namespace, PageObj(existingPage));
    }
  }

  // ---------------------------------------------------------------------
  // Lemmas
  // ---------------------------------------------------------------------

  /** An empty name is refused with "name is required", and the store is not called. */
  lemma EmptyNameMakesNoCall(s: State, namespace: string, doc: FrontendPageDoc, name: string)
    requires doc.name == "" && name == ""
    ensures CreateRawOn(s, namespace, doc) == Reply(Some(NameRequired), s)
    ensures DeleteRawOn(s, namespace, name) == Reply(Some(NameRequired), s)
  {
  }

  /**
   * A named document is created as (namespace, doc.name) with the four spec
   * fields verbatim; on success the store holds exactly that page there.
   */
  lemma CreateStoresDoc(s: State, namespace: string, doc: FrontendPageDoc)
    requires doc.name != ""
    ensures var r := CreateRawOn(s, namespace, doc);
      var k := Key(FrontendPageKind, namespace, doc.name);
      && r.state.calls == s.calls + [CreateCall(k)]
      && (r.result.None? <==> k !in s.faults.create && k !in s.objects)
      && (r.result.None? ==> r.state.objects == s.objects[k := PageObj(FromDoc(doc, namespace))])
      && (r.result.Some? ==> r.state.objects == s.objects)
  {
  }

  /** A named delete removes exactly (namespace, name). */
  lemma DeleteRemovesExactly(s: State, namespace: string, name: string)
    requires name != ""
    ensures var r := DeleteRawOn(s, namespace, name);
      var k := Key(FrontendPageKind, namespace, name);
      && r.state.calls == s.calls + [DeleteCall(k)]
      && r.state.objects == (if r.result.None? then s.objects - {k} else s.objects)
      && (r.result.None? <==> k !in s.faults.delete && k in s.objects)
  {
  }

  /**
   * A document that is created and then listed comes back with all five
   * fields equal, in whatever order the store lists the namespace.
   */
  lemma CreatedDocIsListed(s: State, namespace: string, doc: FrontendPageDoc, listed: seq<FrontendPage>)
    requires Consistent(s.objects) && doc.name != ""
    requires CreateRawOn(s, namespace, doc).result.None?
    requires IsPageListing(CreateRawOn(s, namespace, doc).state.objects, namespace, listed)
    ensures exists i :: 0 <= i < |listed| && DocsOf(listed)[i] == doc
  {
    var k := Key(FrontendPageKind, namespace, doc.name);
    var t := CreateRawOn(s, namespace, doc).state;
    assert k in t.objects && t.objects[k] == PageObj(FromDoc(doc, namespace));
    var i :| 0 <= i < |listed| && listed[i].meta.name == k.name;
    assert t.objects[Key(FrontendPageKind, namespace, listed[i].meta.name)] == PageObj(listed[i]);
    assert listed[i] == FromDoc(doc, namespace);
    DocRoundTrip(doc, namespace);
    assert DocsOf(listed)[i] == ToDoc(listed[i]);
  }

  /**
   * Update overwrites the four spec fields of the stored page and keeps its
   * name, namespace and status; a failed Get is returned with nothing written.
   */
  lemma UpdateOverwritesSpec(s: State, namespace: string, name: string, doc: FrontendPageDoc)
    requires Consistent(s.objects)
    ensures var r := UpdatePageOn(s, namespace, name, doc);
      var k := Key(FrontendPageKind, namespace, name);
      && (k in s.faults.get || k !in s.objects ==>
            r.result.Some? && r.state.objects == s.objects && r.state.calls == s.calls + [GetCall(k)])
      && (k !in s.faults.get && k in s.objects && k !in s.faults.update ==>
            && r.result.None?
            && r.state.calls == s.calls + [GetCall(k), UpdateCall(k)]
            && r.state.objects == s.objects[k := r.state.objects[k]]
            && r.state.objects[k].PageObj?
            && r.state.objects[k].page.meta == s.objects[k].page.meta
            && r.state.objects[k].page.conditions == s.objects[k].page.conditions
            && r.state.objects[k].page.spec == SpecOf(doc))
  {
    var k := Key(FrontendPageKind, namespace, name);
    if k in s.objects {
      assert KeyOf(s.objects[k]) == k;
    }
  }
}
