/** Question answering over a topic's store (src/query_engine.py): the
    retrieval-augmented chain as an opaque retrieval step and an opaque
    generation step that may each fail, the discriminated result of
    `query`, and the citation records of `_format_sources`. */
module QueryEngine {
  import opened Wrappers
  import opened Documents
  import opened VectorStore

  /** Characters of a document kept in its citation excerpt. */
  const EXCERPT_LENGTH: nat := 300

  /** The default for metadata a document lacks. */
  const UNKNOWN: MetaValue := Str("Unknown")

  /** Prefix of the error reported when the chain raises. */
  const QUERY_ERROR_PREFIX: string := "Error processing query: "

  /** The text around the topic in the "no papers" error. */
  const NO_PAPERS_HEAD: string := "No papers found for topic '"
  const NO_PAPERS_TAIL: string := "'. Please upload papers first."

  /** One citation: its 1-based number, file name, page and excerpt. */
  datatype SourceInfo = SourceInfo(number: int, filename: MetaValue, page: MetaValue, content: string)

  /** The dictionary returned by `query`. */
  datatype QueryResult = QueryResult(answer: Option<string>, sources: seq<SourceInfo>, error: Option<string>)

  function Min(a: int, b: int): int
  {
    if a <= b then a else b
  }

  /** `metadata.get(key, default)`. */
  function MetaGet(metadata: Metadata, key: string, default: MetaValue): (v: MetaValue)
    ensures key in metadata ==> v == metadata[key]
    ensures key !in metadata ==> v == default
  {
    if key in metadata then metadata[key] else default
  }

  /** The record `_format_sources` builds for `doc` at position `number`:
      the first 300 characters of the text followed by "...", always. */
  function Citation(doc: Document, number: int): (r: SourceInfo)
    ensures r.number == number
    ensures r.filename == MetaGet(doc.metadata, "source", UNKNOWN)
    ensures r.page == MetaGet(doc.metadata, "page", UNKNOWN)
    ensures |r.content| == Min(|doc.pageContent|, EXCERPT_LENGTH) + 3
    ensures r.content[..|r.content| - 3] <= doc.pageContent
    ensures r.content[|r.content| - 3..] == "..."
  {
    var n := Min(|doc.pageContent|, EXCERPT_LENGTH);
    var excerpt := doc.pageContent[..n] + "...";
    assert excerpt[..n] == doc.pageContent[..n];
    SourceInfo(number, MetaGet(doc.metadata, "source", UNKNOWN),
               MetaGet(doc.metadata, "page", UNKNOWN), excerpt)
  }

  /** `sources` cites `docs` one record per document, in order, numbered
      from 1. */
  ghost predicate Cites(sources: seq<SourceInfo>, docs: seq<Document>)
  {
    |sources| == |docs| &&
    forall i :: 0 <= i < |docs| ==> sources[i] == Citation(docs[i], i + 1)
  }

  /** The citation list of a document list is unique. */
  lemma CitesUnique(s1: seq<SourceInfo>, s2: seq<SourceInfo>, docs: seq<Document>)
    requires Cites(s1, docs) && Cites(s2, docs)
    ensures s1 == s2
  {
  }

  /** The error `query` reports for a topic without a store. */
  function NoPapersMessage(topicId: string): (msg: string)
    ensures |msg| == |NO_PAPERS_HEAD| + |topicId| + |NO_PAPERS_TAIL|
    ensures msg[..|NO_PAPERS_HEAD|] == NO_PAPERS_HEAD
    ensures msg[|NO_PAPERS_HEAD|..|NO_PAPERS_HEAD| + |topicId|] == topicId
    ensures msg[|NO_PAPERS_HEAD| + |topicId|..] == NO_PAPERS_TAIL
  {
    var msg := NO_PAPERS_HEAD + topicId + NO_PAPERS_TAIL;
    assert msg[|NO_PAPERS_HEAD|..|NO_PAPERS_HEAD| + |topicId|] == topicId;
    assert msg[|NO_PAPERS_HEAD| + |topicId|..] == NO_PAPERS_TAIL;
    msg
  }

  /** `RAGQueryEngine`: the chain runs over the shared vector store
      manager. */
  class RAGQueryEngine {
    const vectorManager: VectorStoreManager
    /** `retriever.get_relevant_documents(question)`: similarity search
        over the retriever's store, which may raise. */
    const retrieve: (Retriever, string) -> Result<seq<Document>>
    /** The language-model call on the prompt built from the retrieved
        documents and the question, which may raise. */
    const generate: (seq<Document>, string) -> Result<string>

    constructor (vectorManager: VectorStoreManager,
                 retrieve: (Retriever, string) -> Result<seq<Document>>,
                 generate: (seq<Document>, string) -> Result<string>)
      ensures this.vectorManager == vectorManager
      ensures this.retrieve == retrieve && this.generate == generate
    {
      this.vectorManager := vectorManager;
      this.retrieve := retrieve;
      this.generate := generate;
    }

    /** `_format_sources`: one citation per document, in order, numbered
        from 1. */
    method FormatSources(sourceDocuments: seq<Document>) returns (sources: seq<SourceInfo>)
      ensures Cites(sources, sourceDocuments)
    {
      sources := [];
      var i := 0;
      while i < |sourceDocuments|
        invariant 0 <= i <= |sourceDocuments|
        invariant Cites(sources, sourceDocuments[..i])
      {
        sources := sources + [Citation(sourceDocuments[i], i + 1)];
        i := i + 1;
      }
      assert sourceDocuments[..i] == sourceDocuments;
    }

    /** `query`: a missing store yields the "no papers" error, a failing
        chain yields "Error processing query: " and its message, and
        success yields the answer cited by the retrieved documents. An
        answer is present exactly when no error is, and an error comes with
        no sources. */
    method Query(question: string, topicId: string) returns (r: QueryResult)
      ensures r.answer.Some? <==> r.error.None?
      ensures r.error.Some? ==> r.sources == []
      ensures vectorManager.GetRetriever(topicId, None).None? ==>
        r.error == Some(NoPapersMessage(topicId))
      ensures vectorManager.GetRetriever(topicId, None).Some? ==>
        var retrieved := retrieve(vectorManager.GetRetriever(topicId, None).value, question);
        && (retrieved.Failure? ==> r.error == Some(QUERY_ERROR_PREFIX + retrieved.error))
        && (retrieved.Success? && generate(retrieved.value, question).Failure? ==>
              r.error == Some(QUERY_ERROR_PREFIX + generate(retrieved.value, question).error))
        && (retrieved.Success? && generate(retrieved.value, question).Success? ==>
              r.answer == Some(generate(retrieved.value, question).value) &&
              Cites(r.sources, retrieved.value))
    {
      var retriever := vectorManager.GetRetriever(topicId, None);
      if retriever.None? {
        return QueryResult(None, [], Some(NoPapersMessage(topicId)));
      }
      var retrieved := retrieve(retriever.value, question);
      if retrieved.Failure? {
        return QueryResult(None, [], Some(QUERY_ERROR_PREFIX + retrieved.error));
      }
      var answer := generate(retrieved.value, question);
      if answer.Failure? {
        return QueryResult(None, [], Some(QUERY_ERROR_PREFIX + answer.error));
      }
      var sources := FormatSources(retrieved.value);
      r := QueryResult(Some(answer.value), sources, None);
    }

    /** `get_relevant_chunks`: no citations when the store is missing or
        retrieval fails, otherwise the citations of the retrieved
        documents, using fan-out `k`. */
    method GetRelevantChunks(question: string, topicId: string, k: Option<int>) returns (r: seq<SourceInfo>)
      ensures vectorManager.GetRetriever(topicId, k).None? ==> r == []
      ensures vectorManager.GetRetriever(topicId, k).Some? ==>
        var retrieved := retrieve(vectorManager.GetRetriever(topicId, k).value, question);
        && (retrieved.Failure? ==> r == [])
        && (retrieved.Success? ==> Cites(r, retrieved.value))
    {
      var retriever := vectorManager.GetRetriever(topicId, k);
      if retriever.None? {
        return [];
      }
      var retrieved := retrieve(retriever.value, question);
      if retrieved.Failure? {
        return [];
      }
      r := FormatSources(retrieved.value);
    }
  }
}
