/** The topic-namespaced facade over the persisted Chroma databases
    (src/vector_store.py). Each topic is stored in the directory
    `VECTOR_DB_PATH/<collection name>`; the disk is modelled as a map from
    that directory to the documents of its collection, and embedding and
    similarity search stay opaque. */
module VectorStore {
  import opened Wrappers
  import opened Paths
  import opened Documents
  import Config

  // ---------------------------------------------------------------------
  // Topic normalisation
  // ---------------------------------------------------------------------

  /** `str.lower()` on one character, for ASCII only. */
  function LowerChar(c: char): char
  {
    if 'A' <= c <= 'Z' then (c as int - 'A' as int + 'a' as int) as char else c
  }

  /** The reference mapping of one topic character onto the collection
      name: space and hyphen become an underscore, an upper-case letter
      becomes its lower-case form, anything else is kept. */
  function NormalizeChar(c: char): char
  {
    if c == ' ' || c == '-' then '_'
    else if 'A' <= c <= 'Z' then LowerChar(c)
    else c
  }

  /** No space, no hyphen and no upper-case letter. */
  predicate IsCollectionChar(c: char)
  {
    c != ' ' && c != '-' && !('A' <= c <= 'Z')
  }

  /** `s.replace(from, to)` for a one-character pattern and replacement. */
  function ReplaceChar(s: string, from: char, to: char): (r: string)
    ensures |r| == |s|
    ensures forall i :: 0 <= i < |s| ==> r[i] == (if s[i] == from then to else s[i])
  {
    if s == [] then []
    else [if s[0] == from then to else s[0]] + ReplaceChar(s[1..], from, to)
  }

  /** `s.lower()` for ASCII text. */
  function Lower(s: string): (r: string)
    ensures |r| == |s|
    ensures forall i :: 0 <= i < |s| ==> r[i] == LowerChar(s[i])
  {
    if s == [] then [] else [LowerChar(s[0])] + Lower(s[1..])
  }

  /** `_get_collection_name`: the names agree position by position with
      NormalizeChar, so the result has the topic's length and holds no
      space, hyphen or upper-case letter. */
  function CollectionName(topicId: string): (r: string)
    ensures |r| == |topicId|
    ensures forall i :: 0 <= i < |r| ==> r[i] == NormalizeChar(topicId[i])
    ensures forall i :: 0 <= i < |r| ==> IsCollectionChar(r[i])
  {
    Lower(ReplaceChar(ReplaceChar(topicId, ' ', '_'), '-', '_'))
  }

  /** `_get_persist_directory`: the collection name under VECTOR_DB_PATH,
      or the collection name alone when it is an absolute path. */
  function PersistDirectory(topicId: string): (r: Path)
    ensures (topicId == [] || topicId[0] != '/') ==> r == Config.VECTOR_DB_PATH + "/" + CollectionName(topicId)
    ensures (topicId != [] && topicId[0] == '/') ==> r == CollectionName(topicId)
  {
    Join(Config.VECTOR_DB_PATH, CollectionName(topicId))
  }

  /** Normalising twice changes nothing. */
  lemma CollectionNameIdempotent(topicId: string)
    ensures CollectionName(CollectionName(topicId)) == CollectionName(topicId)
  {
    var once := CollectionName(topicId);
    var twice := CollectionName(once);
    forall i | 0 <= i < |once| ensures twice[i] == once[i] {
      assert twice[i] == NormalizeChar(NormalizeChar(topicId[i]));
    }
  }

  /** Topics that agree up to case and up to space versus hyphen get the
      same collection name. */
  lemma SameNormalisationSameName(a: string, b: string)
    requires |a| == |b|
    requires forall i :: 0 <= i < |a| ==> NormalizeChar(a[i]) == NormalizeChar(b[i])
    ensures CollectionName(a) == CollectionName(b)
  {
    var na, nb := CollectionName(a), CollectionName(b);
    forall i | 0 <= i < |na| ensures na[i] == nb[i] {
      assert na[i] == NormalizeChar(a[i]);
    }
  }

  /** Two topics share a persist directory exactly when their collection
      names agree. */
  lemma SameStoreIffSameName(a: string, b: string)
    ensures PersistDirectory(a) == PersistDirectory(b) <==> CollectionName(a) == CollectionName(b)
  {
    if PersistDirectory(a) == PersistDirectory(b) {
      JoinInjective(Config.VECTOR_DB_PATH, CollectionName(a), CollectionName(b));
    }
  }

  /** The normalisation is not injective: replacing a space by a hyphen
      (as in "ML Health" and "ML-Health") gives a different topic with the
      same store. */
  lemma SpaceHyphenCollide(topicId: string, i: nat)
    requires i < |topicId| && topicId[i] == ' '
    ensures topicId[i := '-'] != topicId
    ensures PersistDirectory(topicId[i := '-']) == PersistDirectory(topicId)
  {
    var other := topicId[i := '-'];
    assert other[i] != topicId[i];
    SameNormalisationSameName(other, topicId);
  }

  /** The normalisation is not injective: upper-casing a letter (as in
      "ml_health" and "ML_health") gives a different topic with the same
      store. */
  lemma CaseCollide(topicId: string, i: nat)
    requires i < |topicId| && 'a' <= topicId[i] <= 'z'
    ensures var upper := (topicId[i] as int - 'a' as int + 'A' as int) as char;
      topicId[i := upper] != topicId &&
      PersistDirectory(topicId[i := upper]) == PersistDirectory(topicId)
  {
    var upper := (topicId[i] as int - 'a' as int + 'A' as int) as char;
    var other := topicId[i := upper];
    assert other[i] != topicId[i];
    SameNormalisationSameName(other, topicId);
  }

  /** Characters other than space, hyphen and upper-case letters are not
      stripped, separators included: a topic that starts with '/' names an
      absolute directory outside VECTOR_DB_PATH. */
  lemma AbsoluteTopicEscapesRoot(topicId: string)
    requires |topicId| > 0 && topicId[0] == '/'
    ensures PersistDirectory(topicId) == CollectionName(topicId)
    ensures PersistDirectory(topicId)[0] == '/'
  {
    assert CollectionName(topicId)[0] == NormalizeChar('/');
  }

  // ---------------------------------------------------------------------
  // The persisted stores, as values
  // ---------------------------------------------------------------------

  /** The vector database on disk: persist directory to the documents of
      its collection. */
  type Stores = map<Path, seq<Document>>

  /** A loaded Chroma vector store for one topic. */
  datatype Store = Store(collection: string, directory: Path, docs: seq<Document>)

  /** A retriever over a store, returning the `k` nearest documents. */
  datatype Retriever = Retriever(store: Store, k: int)

  /** The documents persisted at `dir`, none when it is absent. */
  function DocsAt(m: Stores, dir: Path): seq<Document>
  {
    if dir in m then m[dir] else []
  }

  /** `os.path.exists(dir)`: a store is persisted at `dir` or somewhere
      inside it. */
  predicate OnDisk(m: Stores, dir: Path)
  {
    dir in m || exists p :: p in m && Within(p, dir)
  }

  /** `topic_exists`: the topic's persist directory exists, either as a
      store of its own or as a folder holding other stores. */
  predicate Exists(m: Stores, topicId: string)
    ensures PersistDirectory(topicId) in m ==> Exists(m, topicId)
    ensures Exists(m, topicId) <==>
      exists p :: p in m && (p == PersistDirectory(topicId) || Within(p, PersistDirectory(topicId)))
  {
    OnDisk(m, PersistDirectory(topicId))
  }

  /** `load_vector_store`: None when the directory is absent or when
      opening the collection raises (`opens` is false); a directory that
      only holds other stores opens as an empty collection. */
  function Load(m: Stores, opens: Path -> bool, topicId: string): (r: Option<Store>)
    ensures r.Some? <==> Exists(m, topicId) && opens(PersistDirectory(topicId))
    ensures r.Some? ==> r.value.collection == CollectionName(topicId)
    ensures r.Some? ==> r.value.directory == PersistDirectory(topicId)
    ensures r.Some? ==> r.value.docs == DocsAt(m, PersistDirectory(topicId))
  {
    var dir := PersistDirectory(topicId);
    if !OnDisk(m, dir) || !opens(dir) then None
    else Some(Store(CollectionName(topicId), dir, DocsAt(m, dir)))
  }

  /** When the collection opens, `load_vector_store` returns None exactly
      when `topic_exists` is false. */
  lemma LoadNoneIffAbsent(m: Stores, opens: Path -> bool, topicId: string)
    requires opens(PersistDirectory(topicId))
    ensures Load(m, opens, topicId).None? <==> !Exists(m, topicId)
  {
  }

  /** `k or TOP_K_RESULTS`: a missing or zero `k` selects the default. */
  function FanOut(k: Option<int>): (n: int)
    ensures n != 0
    ensures k.None? ==> n == Config.TOP_K_RESULTS
    ensures k.Some? ==> n == (if k.value == 0 then Config.TOP_K_RESULTS else k.value)
  {
    if k.None? || k.value == 0 then Config.TOP_K_RESULTS else k.value
  }

  /** `get_retriever`: None exactly when the store cannot be loaded;
      otherwise a retriever over the loaded store with the fan-out. */
  function RetrieverFor(m: Stores, opens: Path -> bool, topicId: string, k: Option<int>): (r: Option<Retriever>)
    ensures r.None? <==> Load(m, opens, topicId).None?
    ensures r.Some? ==> r.value.store == Load(m, opens, topicId).value && r.value.k == FanOut(k)
  {
    match Load(m, opens, topicId)
    case None => None
    case Some(store) => Some(Retriever(store, FanOut(k)))
  }

  /** The disk after `add_documents(docs, topicId)` (and after
      `create_vector_store`, which opens the collection by get-or-create):
      the topic's documents are followed by `docs`, every other directory
      is untouched. */
  function Appended(m: Stores, topicId: string, docs: seq<Document>): (r: Stores)
    ensures PersistDirectory(topicId) in r && Exists(r, topicId)
    ensures r[PersistDirectory(topicId)] == DocsAt(m, PersistDirectory(topicId)) + docs
    ensures forall p :: p != PersistDirectory(topicId) ==> (p in r <==> p in m)
    ensures forall p :: p != PersistDirectory(topicId) && p in m ==> r[p] == m[p]
  {
    var dir := PersistDirectory(topicId);
    m[dir := DocsAt(m, dir) + docs]
  }

  /** The disk after `delete_vector_store(topicId)`: `rmtree` removes the
      persist directory with every store inside it, so the topic no longer
      exists; every store outside it is kept, and an absent topic leaves
      the disk as it was. */
  function Removed(m: Stores, topicId: string): (r: Stores)
    ensures !Exists(r, topicId)
    ensures forall p :: p in r <==> p in m && p != PersistDirectory(topicId) && !Within(p, PersistDirectory(topicId))
    ensures forall p :: p in r ==> r[p] == m[p]
    ensures !Exists(m, topicId) ==> r == m
  {
    var dir := PersistDirectory(topicId);
    map p | p in m && p != dir && !Within(p, dir) :: m[p]
  }

  /** Adding to a store that opens and then loading it yields the old
      documents followed by the new ones. */
  lemma LoadAfterAppend(m: Stores, opens: Path -> bool, topicId: string, docs: seq<Document>)
    requires opens(PersistDirectory(topicId))
    ensures Load(Appended(m, topicId, docs), opens, topicId).Some?
    ensures Load(Appended(m, topicId, docs), opens, topicId).value.docs == DocsAt(m, PersistDirectory(topicId)) + docs
  {
  }

  /** Adding to one topic changes neither existence nor the loaded store
      of any topic with a different collection name, unless the new store
      lies inside that topic's directory (which then exists as its parent
      folder). */
  lemma AppendIsolated(m: Stores, opens: Path -> bool, topicId: string, other: string, docs: seq<Document>)
    requires CollectionName(other) != CollectionName(topicId)
    requires !Within(PersistDirectory(topicId), PersistDirectory(other))
    ensures Exists(Appended(m, topicId, docs), other) == Exists(m, other)
    ensures Load(Appended(m, topicId, docs), opens, other) == Load(m, opens, other)
  {
    SameStoreIffSameName(other, topicId);
  }

  /** Retrieval for a topic is unaffected by documents added under any
      topic with a different collection name whose store does not lie
      inside the topic's directory. */
  lemma RetrieverIsolated(m: Stores, opens: Path -> bool, topicId: string, other: string,
                          docs: seq<Document>, k: Option<int>)
    requires CollectionName(other) != CollectionName(topicId)
    requires !Within(PersistDirectory(other), PersistDirectory(topicId))
    ensures RetrieverFor(Appended(m, other, docs), opens, topicId, k) == RetrieverFor(m, opens, topicId, k)
  {
    AppendIsolated(m, opens, other, topicId, docs);
  }

  /** Deleting one topic changes neither existence nor the loaded store of
      any topic with a different collection name, as long as neither
      directory lies inside the other. */
  lemma RemoveIsolated(m: Stores, opens: Path -> bool, topicId: string, other: string)
    requires CollectionName(other) != CollectionName(topicId)
    requires !Within(PersistDirectory(other), PersistDirectory(topicId))
    requires !Within(PersistDirectory(topicId), PersistDirectory(other))
    ensures Exists(Removed(m, topicId), other) == Exists(m, other)
    ensures Load(Removed(m, topicId), opens, other) == Load(m, opens, other)
  {
    SameStoreIffSameName(other, topicId);
    var dir, mine := PersistDirectory(topicId), PersistDirectory(other);
    var r := Removed(m, topicId);
    forall p | p in m && (p == mine || Within(p, mine))
      ensures p in r
    {
      if Within(p, dir) && Within(p, mine) {
        WithinBoth(p, dir, mine);
      }
    }
  }

  /** Deleting a topic also deletes every store persisted inside its
      directory, as `rmtree` does. */
  lemma RemoveNested(m: Stores, topicId: string, inner: string)
    requires Within(PersistDirectory(inner), PersistDirectory(topicId))
    ensures !Exists(Removed(m, topicId), inner)
  {
    var dir, sub := PersistDirectory(topicId), PersistDirectory(inner);
    var r := Removed(m, topicId);
    forall p | p in r
      ensures p != sub && !Within(p, sub)
    {
      if Within(p, sub) {
        WithinTrans(p, sub, dir);
      }
    }
  }

  /** The empty topic's persist directory is VECTOR_DB_PATH itself, so
      deleting it deletes the store of every topic kept under that root. */
  lemma RemoveEmptyTopicWipesRoot(m: Stores, topicId: string)
    requires topicId == [] || topicId[0] != '/'
    ensures !Exists(Removed(m, []), topicId)
  {
    if topicId != [] {
      var root, dir := PersistDirectory([]), PersistDirectory(topicId);
      assert root == Config.VECTOR_DB_PATH + "/";
      assert dir[..|root|] == root;
      RemoveNested(m, [], topicId);
    }
  }

  /** Deleting twice is the same as deleting once. */
  lemma RemoveIdempotent(m: Stores, topicId: string)
    ensures Removed(Removed(m, topicId), topicId) == Removed(m, topicId)
  {
  }

  /** Topics with the same collection name share one store: documents
      added under one are loaded under the other. */
  lemma SharedStore(m: Stores, opens: Path -> bool, topicId: string, other: string, docs: seq<Document>)
    requires CollectionName(other) == CollectionName(topicId)
    requires opens(PersistDirectory(other))
    ensures Load(Appended(m, topicId, docs), opens, other).Some?
    ensures Load(Appended(m, topicId, docs), opens, other).value.docs
         == DocsAt(m, PersistDirectory(topicId)) + docs
  {
  }

  // ---------------------------------------------------------------------
  // The manager object
  // ---------------------------------------------------------------------

  /** `VectorStoreManager`: the persisted directories under VECTOR_DB_PATH
      and the operations over them. */
  class VectorStoreManager {
    /** The vector database on disk. */
    var stores: Stores
    /** Whether Chroma opens the collection persisted at a directory
        without raising. */
    const opens: Path -> bool

    constructor (persisted: Stores, opens: Path -> bool)
      ensures stores == persisted && this.opens == opens
    {
      stores := persisted;
      this.opens := opens;
    }

    /** `load_vector_store`: the topic's store when its directory exists
        and opens, holding the documents persisted there. */
    function LoadVectorStore(topicId: string): (r: Option<Store>)
      reads this
      ensures r.Some? <==> Exists(stores, topicId) && opens(PersistDirectory(topicId))
      ensures r.Some? ==> r.value == Store(CollectionName(topicId), PersistDirectory(topicId),
                                          DocsAt(stores, PersistDirectory(topicId)))
    {
      Load(stores, opens, topicId)
    }

    /** `topic_exists`: true for a topic with a persisted store, and, when
        the collection opens, exactly when it can be loaded. */
    predicate TopicExists(topicId: string)
      reads this
      ensures PersistDirectory(topicId) in stores ==> TopicExists(topicId)
      ensures opens(PersistDirectory(topicId)) ==> (TopicExists(topicId) <==> LoadVectorStore(topicId).Some?)
    {
      Exists(stores, topicId)
    }

    /** `get_retriever(topic_id, k)`: none when the store cannot be
        loaded, otherwise a retriever over it with fan-out `k or TOP_K`. */
    function GetRetriever(topicId: string, k: Option<int>): (r: Option<Retriever>)
      reads this
      ensures r.None? <==> LoadVectorStore(topicId).None?
      ensures r.Some? ==> r.value == Retriever(LoadVectorStore(topicId).value, FanOut(k))
    {
      RetrieverFor(stores, opens, topicId, k)
    }

    /** `create_vector_store`: embeds and stores `documents` in the topic's
        collection, persisted at its directory. */
    method CreateVectorStore(documents: seq<Document>, topicId: string) returns (vs: Store)
      modifies this
      ensures stores == Appended(old(stores), topicId, documents)
      ensures vs == Store(CollectionName(topicId), PersistDirectory(topicId), stores[PersistDirectory(topicId)])
    {
      var dir := PersistDirectory(topicId);
      stores := stores[dir := DocsAt(stores, dir) + documents];
      vs := Store(CollectionName(topicId), dir, stores[dir]);
    }

    /** `add_documents`: creates the store when it cannot be loaded,
        otherwise appends to it. Either way the topic exists afterwards and
        holds its old documents followed by `documents`. */
    method AddDocuments(documents: seq<Document>, topicId: string) returns (vs: Store)
      modifies this
      ensures stores == Appended(old(stores), topicId, documents)
      ensures TopicExists(topicId)
      ensures vs == Store(CollectionName(topicId), PersistDirectory(topicId), stores[PersistDirectory(topicId)])
      ensures vs.docs == DocsAt(old(stores), PersistDirectory(topicId)) + documents
    {
      var loaded := LoadVectorStore(topicId);
      if loaded.None? {
        vs := CreateVectorStore(documents, topicId);
        return;
      }
      var dir := loaded.value.directory;
      stores := stores[dir := loaded.value.docs + documents];
      vs := loaded.value.(docs := stores[dir]);
    }

    /** `delete_vector_store`: removes the topic's directory tree if it
        exists. */
    method DeleteVectorStore(topicId: string)
      modifies this
      ensures stores == Removed(old(stores), topicId)
      ensures !TopicExists(topicId)
    {
      var dir := PersistDirectory(topicId);
      if OnDisk(stores, dir) {
        stores := map p | p in stores && p != dir && !Within(p, dir) :: stores[p];
      }
    }
  }
}
