/**
 * The application-wide store of clients, engagement phases and uploaded
 * client documents. Clients and phases live in memory only; the document
 * collection is written through, whole, to one record of the browser's
 * durable key-value storage after every change, and read back from it when
 * the store is created.
 */
module ClientContext {
  import opened Types

  /** The single storage key the document collection is kept under. */
  const DocsStorageKey: string := "qb-client-documents"

  /**
   * What a storage record can hold, as far as loading is concerned: the
   * serialization of a document collection, text that does not parse, or
   * the empty string.
   */
  datatype StoredValue = Serialized(docs: seq<ClientDocument>) | Unparseable(raw: string) | EmptyText

  type Storage = map<string, StoredValue>

  /**
   * Reads the document collection back. Outside a browser, without a
   * record, with an empty record or with one that does not parse, the
   * result is the empty collection; loading never fails.
   */
  function LoadDocuments(inBrowser: bool, storage: Storage): (r: seq<ClientDocument>)
    ensures !inBrowser || DocsStorageKey !in storage || !storage[DocsStorageKey].Serialized? ==> r == []
    ensures r != [] ==> storage[DocsStorageKey] == Serialized(r)
  {
    if !inBrowser then []
    else if DocsStorageKey !in storage then []
    else match storage[DocsStorageKey]
      case Serialized(docs) => docs
      case Unparseable(_) => []
      case EmptyText => []
  }

  /** Writes the whole collection under the single key, replacing what was there; the write is taken to succeed. */
  function SaveDocuments(storage: Storage, docs: seq<ClientDocument>): (s: Storage)
    ensures s.Keys == storage.Keys + {DocsStorageKey}
    ensures s[DocsStorageKey] == Serialized(docs)
    ensures forall k :: k in storage && k != DocsStorageKey ==> s[k] == storage[k]
  {
    storage[DocsStorageKey := Serialized(docs)]
  }

  /** A load after a save returns the collection saved last. */
  lemma SaveThenLoad(storage: Storage, docs: seq<ClientDocument>, later: seq<ClientDocument>)
    ensures LoadDocuments(true, SaveDocuments(storage, docs)) == docs
    ensures LoadDocuments(true, SaveDocuments(SaveDocuments(storage, docs), later)) == later
  {
  }

  /** `docs.filter(d => d.id !== id)`. */
  function WithoutDocument(docs: seq<ClientDocument>, id: string): (r: seq<ClientDocument>)
    ensures |r| <= |docs|
    ensures forall d :: d in r <==> d in docs && d.id != id
  {
    if docs == [] then []
    else if docs[0].id != id then [docs[0]] + WithoutDocument(docs[1..], id)
    else WithoutDocument(docs[1..], id)
  }

  /** `docs.filter(d => d.clientId === clientId)`. */
  function DocumentsOf(docs: seq<ClientDocument>, clientId: string): (r: seq<ClientDocument>)
    ensures |r| <= |docs|
    ensures forall d :: d in r <==> d in docs && d.clientId == clientId
  {
    if docs == [] then []
    else if docs[0].clientId == clientId then [docs[0]] + DocumentsOf(docs[1..], clientId)
    else DocumentsOf(docs[1..], clientId)
  }

  /** Removing an id that no record carries leaves the collection as it is. */
  lemma {:induction false} RemoveAbsentIsNoOp(docs: seq<ClientDocument>, id: string)
    requires forall d :: d in docs ==> d.id != id
    ensures WithoutDocument(docs, id) == docs
  {
    if docs != [] {
      assert docs[0] in docs;
      RemoveAbsentIsNoOp(docs[1..], id);
      assert docs == [docs[0]] + docs[1..];
    }
  }

  /** Removal keeps the relative order of what remains: it works piece by piece. */
  lemma {:induction false} RemoveKeepsOrder(a: seq<ClientDocument>, b: seq<ClientDocument>, id: string)
    ensures WithoutDocument(a + b, id) == WithoutDocument(a, id) + WithoutDocument(b, id)
  {
    if a == [] {
      assert a + b == b;
    } else {
      assert (a + b)[1..] == a[1..] + b;
      RemoveKeepsOrder(a[1..], b, id);
    }
  }

  /** Adding a document whose id is new and then removing that id restores the collection. */
  lemma AddThenRemove(docs: seq<ClientDocument>, doc: ClientDocument)
    requires forall d :: d in docs ==> d.id != doc.id
    ensures WithoutDocument([doc] + docs, doc.id) == docs
  {
    assert ([doc] + docs)[1..] == docs;
    RemoveAbsentIsNoOp(docs, doc.id);
  }

  /** A client's documents come out in collection order, so the one added last comes first. */
  lemma {:induction false} ClientDocumentsKeepOrder(a: seq<ClientDocument>, b: seq<ClientDocument>, clientId: string)
    ensures DocumentsOf(a + b, clientId) == DocumentsOf(a, clientId) + DocumentsOf(b, clientId)
  {
    if a == [] {
      assert a + b == b;
    } else {
      assert (a + b)[1..] == a[1..] + b;
      ClientDocumentsKeepOrder(a[1..], b, clientId);
    }
  }

  lemma NewestDocumentFirst(docs: seq<ClientDocument>, doc: ClientDocument)
    ensures DocumentsOf([doc] + docs, doc.clientId) == [doc] + DocumentsOf(docs, doc.clientId)
  {
    assert ([doc] + docs)[1..] == docs;
  }

  /** The provider: three collections and the durable storage the document collection is mirrored to. */
  class ClientStore {
    var allClients: seq<Client>
    var allPhases: seq<Phase>
    var clientDocuments: seq<ClientDocument>
    var storage: Storage

    /** The write-through effect has run: storage holds exactly the current collection. */
    ghost predicate Valid()
      reads this
    {
      DocsStorageKey in storage && storage[DocsStorageKey] == Serialized(clientDocuments)
    }

    /**
     * Mounting the provider in a browser: the seed clients and phases, the
     * documents loaded from storage, and the effect's first write.
     */
    constructor (clients: seq<Client>, phases: seq<Phase>, initial: Storage)
      ensures Valid()
      ensures allClients == clients && allPhases == phases
      ensures clientDocuments == LoadDocuments(true, initial)
      ensures storage == SaveDocuments(initial, clientDocuments)
    {
      allClients := clients;
      allPhases := phases;
      clientDocuments := LoadDocuments(true, initial);
      storage := SaveDocuments(initial, LoadDocuments(true, initial));
    }

    /** Appends the client and, in order, its phases. */
    method AddClient(client: Client, phases: seq<Phase>)
      requires Valid()
      modifies this
      ensures Valid()
      ensures allClients == old(allClients) + [client]
      ensures allPhases == old(allPhases) + phases
      ensures clientDocuments == old(clientDocuments) && storage == old(storage)
    {
      allClients := allClients + [client];
      allPhases := allPhases + phases;
    }

    /** The phase setter the store hands out to pages. */
    method SetAllPhases(phases: seq<Phase>)
      requires Valid()
      modifies this
      ensures Valid()
      ensures allPhases == phases
      ensures allClients == old(allClients) && clientDocuments == old(clientDocuments) && storage == old(storage)
    {
      allPhases := phases;
    }

    /** Prepends the document, then writes the collection through. */
    method AddDocument(doc: ClientDocument)
      requires Valid()
      modifies this
      ensures Valid()
      ensures clientDocuments == [doc] + old(clientDocuments)
      ensures storage == SaveDocuments(old(storage), clientDocuments)
      ensures allClients == old(allClients) && allPhases == old(allPhases)
    {
      clientDocuments := [doc] + clientDocuments;
      storage := SaveDocuments(storage, clientDocuments);
    }

    /** Drops every document with the id, then writes the collection through. */
    method RemoveDocument(id: string)
      requires Valid()
      modifies this
      ensures Valid()
      ensures clientDocuments == WithoutDocument(old(clientDocuments), id)
      ensures storage == SaveDocuments(old(storage), clientDocuments)
      ensures allClients == old(allClients) && allPhases == old(allPhases)
    {
      clientDocuments := WithoutDocument(clientDocuments, id);
      storage := SaveDocuments(storage, clientDocuments);
    }

    /** The documents of one client, newest first; the store is not changed. */
    method GetClientDocuments(clientId: string) returns (docs: seq<ClientDocument>)
      ensures docs == DocumentsOf(clientDocuments, clientId)
      ensures forall d :: d in docs <==> d in clientDocuments && d.clientId == clientId
    {
      docs := DocumentsOf(clientDocuments, clientId);
    }

    /** What a reload would see: the collection as last written. */
    method Reload() returns (docs: seq<ClientDocument>)
      requires Valid()
      ensures docs == clientDocuments
    {
      docs := LoadDocuments(true, storage);
    }
  }
}
