# Research RAG assistant: a Dafny model of the retrieval core

This project models the core of a retrieval-augmented question-answering
assistant over uploaded research papers. Papers are grouped by a free-form
*topic*. Ingestion works in four steps: it saves each upload under
`UPLOADS_PATH/<topic>`, loads its PDF pages, stamps each page with the file's
basename as `"source"`, and splits the pages into chunks numbered by
`"chunk_id"`. The chunks go into a per-topic vector store, persisted at
`VECTOR_DB_PATH/<collection name>`. The collection name is the topic with
spaces and hyphens replaced by underscores, then lower-cased. A query loads
the topic's store, retrieves the nearest chunks, asks the language model for
an answer, and returns the answer with numbered citations. If any of that
fails, the query returns an error message instead.

Modules:

- `Wrappers`: `Option` and `Result`.
- `Config`: the constants of `src/config.py`, at their default values.
- `Paths`: POSIX `os.path.join` with two components, and `os.path.basename`.
- `Documents`: documents with their page content and metadata, and metadata update.
- `VectorStore` (`src/vector_store.py`): topic normalisation, and the disk as a map
  from persist directory to the documents of its collection.
  - Pure specification functions over that map: `Load`, `Appended`, `Removed`, `RetrieverFor`.
  - The class `VectorStoreManager`, whose methods update the map.
- `QueryEngine` (`src/query_engine.py`): citation records, and the class
  `RAGQueryEngine` with `Query`, `FormatSources` and `GetRelevantChunks`.
- `DocumentProcessing` (`src/document_processor.py`): the uploads directory as a
  tree of paths, the stamping and numbering specifications, the batch loader as
  a concatenation over files, and the class `DocumentProcessor`.

External services are function-valued fields fixed at construction:

- Chroma opening a persisted collection: `VectorStoreManager.opens`, a
  boolean. `load_vector_store` catches the exception and returns `None`, so
  its message never reaches a caller.
- Similarity search: `RAGQueryEngine.retrieve`. It may fail, and the failure
  carries the exception's message, which `query` reports.
- The language model: `RAGQueryEngine.generate`. It may fail with a message,
  like retrieval.
- The PDF loader: `DocumentProcessor.pdfLoader`. It may fail with a message,
  which `load_pdf` wraps.
- The text splitter: `DocumentProcessor.textSplitter`, a total function. No
  handler in the core catches a splitter exception.

Embedding inside `create_vector_store` and `add_documents` is not modelled as
a call that can fail (see "## Left out").

The disk follows `os.path.exists` and `shutil.rmtree`:

- The vector database and the uploads are two separate trees. In each tree,
  a directory exists when an entry of that tree is recorded at it or anywhere
  inside it. Entries of the other tree do not count (see `VectorStore.Exists`
  under "## Left out").
- Deleting a topic removes its whole directory tree, nested topics included.
  Topic names may contain `/`, so topic `a/b` is stored inside topic `a`.
  `VectorStore.RemoveNested` and `DocumentProcessing.DeleteRemovesNested`
  state this.
- The empty topic's store directory is `VECTOR_DB_PATH` itself.
  `VectorStore.RemoveEmptyTopicWipesRoot` states the consequence: deleting it
  deletes every relative topic's store.
- The isolation lemmas therefore carry non-nesting requirements.
  - `RemoveIsolated` requires that neither topic's directory lie inside the
    other's.
  - `AppendIsolated` and `RetrieverIsolated` require only that the store being
    added to not lie inside the other topic's directory.

Where the code and its documentation differ, the model follows the code:

- The upload folder is named by the raw topic, not by the normalised
  collection name. `UploadFolderNotNormalised` shows that two topics can
  share a store yet keep separate upload folders.
- `"..."` is appended to every citation excerpt, even one shorter than 300
  characters.
- `create_vector_store` opens its collection by get-or-create, so it
  appends to a store that already exists rather than replacing it.
- Topic normalisation only rewrites spaces, hyphens and upper-case letters,
  so a topic may still contain `/`. A topic starting with `/` makes
  `os.path.join` discard `VECTOR_DB_PATH`. `AbsoluteTopicEscapesRoot` states this.

## Model

| member | source | states |
|---|---|---|
| Paths.Join | src/vector_store.py:57 | `os.path.join` of two components: an absolute second component is the result; otherwise the result starts with the first, ends with the second, and holds one separator between them exactly when the first is non-empty without a trailing separator |
| Paths.JoinInjective | src/vector_store.py:57 | under a relative root without a trailing separator, `os.path.join(root, x)` determines `x` |
| Paths.BasenameIsLastComponent | src/document_processor.py:73 | `os.path.basename`: the basename holds no separator, is a suffix of the path, and is either the whole path or preceded by a separator |
| Paths.BasenameOfJoin | src/document_processor.py:50 | the basename of `join(dir, name)` is `name` for any separator-free name |
| Documents.SetMetaKeepsRest | src/document_processor.py:73 | setting one metadata key gives it the new value and keeps the text and every other key |
| VectorStore.ReplaceChar | src/vector_store.py:45 | `str.replace` of one character: same length, each position replaced exactly when it matched |
| VectorStore.Lower | src/vector_store.py:45 | `lower()`: same length, each position lower-cased (ASCII) |
| VectorStore.CollectionName | src/vector_store.py:32-45 | same length as the topic; position by position equal to the reference character mapping; no space, hyphen or (ASCII) upper-case letter remains |
| VectorStore.PersistDirectory | src/vector_store.py:47-57 | `VECTOR_DB_PATH/<collection name>` for a relative topic; the collection name alone for a topic starting with `/` |
| VectorStore.CollectionNameIdempotent | src/vector_store.py:45 | normalising a collection name again changes nothing |
| VectorStore.SameNormalisationSameName | src/vector_store.py:45 | topics that agree up to case and space-versus-hyphen get the same collection name |
| VectorStore.SameStoreIffSameName | src/vector_store.py:47-57 | two topics share a persist directory if and only if their collection names are equal |
| VectorStore.SpaceHyphenCollide | src/vector_store.py:45-57 | replacing a space by a hyphen gives a different topic with the same persist directory |
| VectorStore.CaseCollide | src/vector_store.py:45-57 | upper-casing a lower-case letter gives a different topic with the same persist directory |
| VectorStore.AbsoluteTopicEscapesRoot | src/vector_store.py:43-57 | a topic starting with `/` is persisted at its own collection name, an absolute path outside `VECTOR_DB_PATH` |
| VectorStore.Exists | src/vector_store.py:177-188 | `topic_exists`: true exactly when a store is persisted at the topic's directory or inside it; in particular, true whenever the topic has a store |
| VectorStore.Load | src/vector_store.py:102-132 | a store is returned exactly when the directory exists and the collection opens, with the topic's collection name, directory and persisted documents (none for a directory that only holds other stores) |
| VectorStore.LoadNoneIffAbsent | src/vector_store.py:113-117 | when the collection opens, loading yields None exactly when `topic_exists` is false |
| VectorStore.FanOut | src/vector_store.py:209-211 | `k or TOP_K_RESULTS`: a missing or zero `k` gives 5, any other `k` is kept, and the fan-out is never zero |
| VectorStore.RetrieverFor | src/vector_store.py:190-211 | no retriever exactly when the store cannot be loaded; otherwise a retriever over the loaded store with the fan-out |
| VectorStore.Appended | src/vector_store.py:134-162 | after adding, the topic exists and holds its old documents followed by the new ones; every other directory is unchanged |
| VectorStore.Removed | src/vector_store.py:164-175 | after deleting, the topic no longer exists; exactly the stores at or inside its directory are gone, every other store is kept unchanged, and deleting an absent topic changes nothing |
| VectorStore.LoadAfterAppend | src/vector_store.py:150-162 | loading after an add returns the old documents followed by the added ones |
| VectorStore.AppendIsolated | src/vector_store.py:151-162 | adding under one topic affects neither the existence nor the loaded store of a topic with another collection name, unless the new store lies inside that topic's directory |
| VectorStore.RetrieverIsolated | src/vector_store.py:202-211 | a topic's retriever is unchanged by adds under a topic with another collection name whose store is not inside the topic's directory |
| VectorStore.RemoveIsolated | src/vector_store.py:171-175 | deleting one topic affects neither the existence nor the loaded store of a topic with another collection name, when neither directory lies inside the other |
| VectorStore.RemoveNested | src/vector_store.py:173-174 | deleting a topic also deletes every topic whose directory lies inside it |
| VectorStore.RemoveEmptyTopicWipesRoot | src/vector_store.py:57 | deleting the empty topic deletes VECTOR_DB_PATH, so no relative topic exists afterwards |
| VectorStore.RemoveIdempotent | src/vector_store.py:171-175 | deleting twice equals deleting once |
| VectorStore.SharedStore | src/vector_store.py:151-162 | documents added under a topic are loaded under any topic with the same collection name |
| VectorStore.VectorStoreManager.constructor | src/vector_store.py:20-30 | the manager starts from the persisted directories and the given collection opener |
| VectorStore.VectorStoreManager.LoadVectorStore | src/vector_store.py:102-132 | on the manager's disk: a store exactly when the topic exists and opens, namely the topic's collection at its directory with the documents persisted there |
| VectorStore.VectorStoreManager.TopicExists | src/vector_store.py:177-188 | true for a topic with a persisted store; when its collection opens, true exactly when `load_vector_store` returns a store |
| VectorStore.VectorStoreManager.GetRetriever | src/vector_store.py:190-211 | none exactly when `load_vector_store` gives none; otherwise a retriever over the loaded store with fan-out `k or TOP_K_RESULTS` |
| VectorStore.VectorStoreManager.CreateVectorStore | src/vector_store.py:59-100 | the disk becomes `Appended` of the old disk, and the returned store is the topic's collection at its directory with its documents |
| VectorStore.VectorStoreManager.AddDocuments | src/vector_store.py:134-162 | whether it creates or appends, the disk becomes `Appended` of the old disk, the topic exists, and the returned store is the topic's collection at its directory, holding the old documents followed by the new |
| VectorStore.VectorStoreManager.DeleteVectorStore | src/vector_store.py:164-175 | the disk becomes `Removed` of the old disk, and the topic no longer exists |
| QueryEngine.MetaGet | src/query_engine.py:170-171 | `metadata.get(key, default)`: the stored value when the key is present, the default otherwise |
| QueryEngine.Citation | src/query_engine.py:167-173 | number as given; filename and page from metadata with "Unknown" as default; content is a prefix of the text of length min(len, 300) followed by "..." |
| QueryEngine.CitesUnique | src/query_engine.py:154-176 | a document list has exactly one citation list |
| QueryEngine.NoPapersMessage | src/query_engine.py:107-112 | the missing-store message is the fixed head, the topic verbatim, then the fixed tail, each at its position |
| QueryEngine.RAGQueryEngine.constructor | src/query_engine.py:19-35 | the engine keeps the given manager, retrieval step and generation step |
| QueryEngine.RAGQueryEngine.FormatSources | src/query_engine.py:154-176 | one citation per document, in order, numbered from 1 |
| QueryEngine.RAGQueryEngine.Query | src/query_engine.py:83-152 | an answer exactly when there is no error; errors come with no sources; no store gives the "No papers found" error; a failure of retrieval or generation gives "Error processing query: " plus its message; success gives the generated answer cited by the retrieved documents |
| QueryEngine.RAGQueryEngine.GetRelevantChunks | src/query_engine.py:178-210 | no citations when the store is missing or retrieval fails; otherwise the citations of the documents retrieved with the requested fan-out |
| DocumentProcessing.TopicFolder | src/document_processor.py:46 | `UPLOADS_PATH/<raw topic>` for a relative topic; the topic itself when it starts with `/` |
| DocumentProcessing.UploadPath | src/document_processor.py:50 | a non-empty relative file name gives a path inside the topic folder; an absolute one is the path itself |
| DocumentProcessing.Saved | src/document_processor.py:34-54 | after saving, the topic folder exists and the upload path holds the file's bytes; every other file is unchanged |
| DocumentProcessing.FolderOnDisk | src/document_processor.py:157 | `os.path.exists` of a folder: true exactly when a recorded folder is at it or inside it, or a recorded file is inside it |
| DocumentProcessing.Removed | src/document_processor.py:148-159 | deleting removes the topic folder with every folder and file inside it and keeps everything else, so the folder no longer exists; an absent folder leaves the tree unchanged |
| DocumentProcessing.DeleteRemovesSaved | src/document_processor.py:46-158 | a file saved under a topic with a non-empty relative name is gone after the topic's files are deleted |
| DocumentProcessing.DeleteRemovesNested | src/document_processor.py:156-158 | deleting a topic's files also deletes the files of every topic whose folder lies inside it |
| DocumentProcessing.SaveTwiceLastWins | src/document_processor.py:50-52 | saving two uploads of one name under one topic equals saving only the second |
| DocumentProcessing.RemoveIdempotent | src/document_processor.py:156-159 | deleting a topic's files twice equals deleting them once |
| DocumentProcessing.AbsoluteTopicSharesTree | src/document_processor.py:46 | an absolute topic with no space, hyphen or upper-case letter has one path as its upload folder and its persist directory (with src/vector_store.py:57) |
| DocumentProcessing.UploadFolderNotNormalised | src/document_processor.py:46 | two topics differing by space versus hyphen share a vector store but have different upload folders |
| DocumentProcessing.JoinInjectiveUploads | src/document_processor.py:46 | distinct topics have distinct upload folders |
| DocumentProcessing.UploadedNameIsSource | src/document_processor.py:46-73 | a file saved under a separator-free name has that name as the basename stamped on its pages |
| DocumentProcessing.Stamped | src/document_processor.py:71-75 | one stamped document per loaded page (StampedPages gives their contents) |
| DocumentProcessing.PagesOf | src/document_processor.py:92-98 | a file contributes nothing when it fails to load, and one document per page when it loads |
| DocumentProcessing.StampedPages | src/document_processor.py:71-75 | stamping keeps one document per page in order; each gets "source" = basename of the path and keeps its text and other metadata |
| DocumentProcessing.ConcatMapAppend | src/document_processor.py:90-100 | collecting over a concatenation of inputs is the concatenation of the two collections |
| DocumentProcessing.ConcatMapNothing | src/document_processor.py:90-100 | when every input contributes nothing, the collection is empty |
| DocumentProcessing.LoadedPages | src/document_processor.py:90-100 | the batch's pages are empty when every file fails to load (the three lemmas below give the rest) |
| DocumentProcessing.LoadedPagesAppend | src/document_processor.py:90-100 | loading a batch is loading its two halves one after the other |
| DocumentProcessing.FailedFileSkipped | src/document_processor.py:92-98 | a file that fails to load contributes nothing, and the files after it are still loaded |
| DocumentProcessing.LoadedPagesSourced | src/document_processor.py:90-100 | every loaded page comes from a file of the batch that loaded successfully and carries that file's basename as "source" |
| DocumentProcessing.Numbered | src/document_processor.py:119-123 | one numbered chunk per split chunk (NumberedChunks gives their contents) |
| DocumentProcessing.NumberedChunks | src/document_processor.py:119-123 | numbering keeps one chunk per split chunk in order; chunk `i` has "chunk_id" `i`, ids are pairwise distinct, and text and other metadata are kept |
| DocumentProcessing.DocumentProcessor.constructor | src/document_processor.py:20-32 | the processor keeps the given uploads tree, PDF loader and text splitter |
| DocumentProcessing.DocumentProcessor.SaveUploadedFile | src/document_processor.py:34-54 | returns `UPLOADS_PATH/topic/name`, and the tree becomes `Saved` of the old tree |
| DocumentProcessing.DocumentProcessor.LoadPdf | src/document_processor.py:56-78 | succeeds exactly when the loader does, returning its pages stamped with the file's basename; a load failure gives "Error loading PDF <path>: <message>" |
| DocumentProcessing.DocumentProcessor.LoadMultiplePdfs | src/document_processor.py:80-100 | the concatenation, in input order, of the stamped pages of exactly the files that load |
| DocumentProcessing.DocumentProcessor.SplitDocuments | src/document_processor.py:102-123 | the splitter's chunks numbered by position |
| DocumentProcessing.DocumentProcessor.ProcessPdfs | src/document_processor.py:125-146 | the numbered chunks of the split of the batch loader's pages |
| DocumentProcessing.DocumentProcessor.DeleteTopicFiles | src/document_processor.py:148-159 | the tree becomes `Removed` of the old tree, and the topic folder no longer exists |

## Left out

- `ui/streamlit_app.py` and the rest of the user interface are not part of this model.
- `Config.validate` is left out. It checks the API key and creates the two data directories; API keys are outside the model.
- Reading settings from the environment is left out. The constants take their default values.
- Embedding is opaque, and so is similarity search. The model says nothing about which chunks are retrieved. It does not check that at most `k` come back either, because that depends on the search.
- The prompt template and its refusal sentences are prompt text for the language model. They promise nothing the code itself enforces.
- PDF text extraction and the splitter's algorithm are opaque functions. The model therefore claims no bound from `CHUNK_SIZE` or `CHUNK_OVERLAP`.
- The filesystem is lexical.
  - Paths are compared as strings, without `..` or symbolic links.
  - The parent folders `os.makedirs` creates are not recorded. A folder still counts as existing when anything recorded lies inside it.
  - Collisions between a file and a folder are not modelled. One such case is `rmtree` raising on a path that is a file.
  - Errors raised by the operating system (permissions, a full disk) are not modelled.
- VectorStore.VectorStoreManager.CreateVectorStore: a failure while embedding or writing the collection is not modelled, and creating and adding always succeed. Neither `create_vector_store` nor `add_documents` catches the exception, and the model cannot say what Chroma has already written when one is raised partway.
- VectorStore.VectorStoreManager.AddDocuments: if the directory exists but the collection does not open, the model still appends by get-or-create. Whether Chroma would raise there is not modelled.
- VectorStore.Load: whether a collection opens depends only on its directory, and stays fixed for the lifetime of the manager.
- QueryEngine.RAGQueryEngine.Query: building the retriever and the question-answering chain is assumed never to raise. Only retrieval and generation can fail.
- QueryEngine.RAGQueryEngine.Query: the chain's source documents are taken to be exactly the retrieved documents, in retrieval order.
- VectorStore.Lower: only ASCII upper-case letters are lower-cased. Python's Unicode case mapping is not modelled.
- VectorStore.CollectionName: this inherits `Lower`'s gap. A non-ASCII upper-case letter such as "É" is kept, where Python would lower-case it.
- VectorStore.Exists: the vector database and the uploads are modelled as separate trees.
  - This is exact for relative topics, whose paths lie under the two distinct roots.
  - For an absolute topic already in collection form, the upload folder and the persist directory are one path (`AbsoluteTopicSharesTree`).
  - In the source, saving an upload for such a topic then makes `topic_exists` true without any store. `delete_topic_files` also deletes the store there.
  - The model keeps the trees apart: uploads never make a topic exist, and deleting uploads never touches a store.
- Progress messages written with `print` are left out.
- Documents are values. The in-place metadata update of `load_pdf` and `split_documents` is modelled as a rebuilt sequence, so aliasing between the caller's list and the returned one is not captured.
- `Config` holds only the constants the core uses. The model names, the API key and `validate` are not part of this model.
