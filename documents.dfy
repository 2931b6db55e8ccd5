/** LangChain's `Document`: page text plus a metadata dictionary. */
module Documents {

  /** The metadata values the core stores: file names (strings) and page
      numbers or chunk ids (integers). */
  datatype MetaValue = Str(s: string) | Int(i: int)

  type Metadata = map<string, MetaValue>

  datatype Document = Document(pageContent: string, metadata: Metadata)

  /** `doc.metadata[key] = value`. */
  function SetMeta(doc: Document, key: string, value: MetaValue): Document
  {
    doc.(metadata := doc.metadata[key := value])
  }

  /** Setting one key stores the value there and keeps the text and every
      other key. */
  lemma SetMetaKeepsRest(doc: Document, key: string, value: MetaValue)
    ensures key in SetMeta(doc, key, value).metadata && SetMeta(doc, key, value).metadata[key] == value
    ensures SameExcept(SetMeta(doc, key, value), doc, key)
  {
    assert SetMeta(doc, key, value).metadata - {key} == doc.metadata - {key};
  }

  /** The two documents have the same text and agree on every metadata key
      other than `key`. */
  predicate SameExcept(a: Document, b: Document, key: string)
  {
    && a.pageContent == b.pageContent
    && a.metadata - {key} == b.metadata - {key}
  }
}
