/** Ingestion bookkeeping (src/document_processor.py): saving uploads
    under the raw topic, stamping loaded pages with their file name,
    tolerating per-file load failures, numbering chunks, and deleting a
    topic's upload folder. The PDF loader and the text splitter are
    opaque; the uploads directory is an abstract tree of paths. */
module DocumentProcessing {
  import opened Wrappers
  import opened Paths
  import opened Documents
  import Config
  import VectorStore

  newtype byte = b: int | 0 <= b < 256

  /** A file from the upload widget: its name and its bytes. */
  datatype UploadedFile = UploadedFile(name: string, buffer: seq<byte>)

  /** The uploads directory: the folders that exist and the stored files. */
  datatype UploadTree = UploadTree(folders: set<Path>, files: map<Path, seq<byte>>)

  // ---------------------------------------------------------------------
  // Uploads
  // ---------------------------------------------------------------------

  /** The upload folder of a topic: named by the raw topic, not by its
      collection name, under UPLOADS_PATH unless the topic is absolute. */
  function TopicFolder(topicId: string): (r: Path)
    ensures (topicId == [] || topicId[0] != '/') ==> r == Config.UPLOADS_PATH + "/" + topicId
    ensures (topicId != [] && topicId[0] == '/') ==> r == topicId
  {
    Join(Config.UPLOADS_PATH, topicId)
  }

  /** `save_uploaded_file`'s result: `UPLOADS_PATH / topic_id / name`,
      which lies inside the topic folder for a non-empty relative name. */
  function UploadPath(topicId: string, name: string): (r: Path)
    ensures (|name| > 0 && name[0] != '/') ==> Within(r, TopicFolder(topicId))
    ensures (|name| > 0 && name[0] == '/') ==> r == name
  {
    Join(TopicFolder(topicId), name)
  }

  /** The uploads after `save_uploaded_file(file, topicId)`: the topic
      folder exists and the file holds the upload's bytes, overwriting any
      earlier file of that path; no other file changes. */
  function Saved(u: UploadTree, topicId: string, file: UploadedFile): (r: UploadTree)
    ensures r.folders == u.folders + {TopicFolder(topicId)}
    ensures UploadPath(topicId, file.name) in r.files
    ensures r.files[UploadPath(topicId, file.name)] == file.buffer
    ensures forall p :: p != UploadPath(topicId, file.name) ==> (p in r.files <==> p in u.files)
    ensures forall p :: p != UploadPath(topicId, file.name) && p in u.files ==> r.files[p] == u.files[p]
  {
    UploadTree(u.folders + {TopicFolder(topicId)},
               u.files[UploadPath(topicId, file.name) := file.buffer])
  }

  /** `os.path.exists(dir)` for a folder: it was created itself, or some
      folder or file lies inside it. */
  predicate FolderOnDisk(u: UploadTree, dir: Path)
    ensures dir in u.folders ==> FolderOnDisk(u, dir)
    ensures FolderOnDisk(u, dir) <==>
      (exists f :: f in u.folders && (f == dir || Within(f, dir))) ||
      (exists p :: p in u.files && Within(p, dir))
  {
    dir in u.folders || (exists f :: f in u.folders && Within(f, dir)) ||
    (exists p :: p in u.files && Within(p, dir))
  }

  /** The uploads after `delete_topic_files(topicId)`: `rmtree` removes the
      topic folder with every folder and file inside it and keeps
      everything else, so the folder is gone; when it does not exist
      nothing changes. */
  function Removed(u: UploadTree, topicId: string): (r: UploadTree)
    ensures !FolderOnDisk(r, TopicFolder(topicId))
    ensures !FolderOnDisk(u, TopicFolder(topicId)) ==> r == u
    ensures forall f :: f in r.folders <==> f in u.folders && f != TopicFolder(topicId) && !Within(f, TopicFolder(topicId))
    ensures forall p :: p in r.files <==> p in u.files && !Within(p, TopicFolder(topicId))
    ensures forall p :: p in r.files ==> r.files[p] == u.files[p]
  {
    var folder := TopicFolder(topicId);
    UploadTree(set f | f in u.folders && f != folder && !Within(f, folder),
               map p | p in u.files && !Within(p, folder) :: u.files[p])
  }

  /** Saving two uploads of the same name under one topic leaves one file,
      holding the second upload's bytes. */
  lemma SaveTwiceLastWins(u: UploadTree, topicId: string, first: UploadedFile, second: UploadedFile)
    requires first.name == second.name
    ensures Saved(Saved(u, topicId, first), topicId, second) == Saved(u, topicId, second)
  {
    var twice, once := Saved(Saved(u, topicId, first), topicId, second), Saved(u, topicId, second);
    assert twice.folders == once.folders;
    assert twice.files == once.files;
  }

  /** Deleting a topic's files removes every file saved under it with a
      non-empty relative name. */
  lemma DeleteRemovesSaved(u: UploadTree, topicId: string, file: UploadedFile)
    requires |file.name| > 0 && file.name[0] != '/'
    ensures UploadPath(topicId, file.name) !in Removed(Saved(u, topicId, file), topicId).files
  {
  }

  /** Deleting a topic's files also deletes the files of every topic whose
      folder lies inside it, as `rmtree` does. */
  lemma DeleteRemovesNested(u: UploadTree, topicId: string, inner: string, name: string)
    requires Within(TopicFolder(inner), TopicFolder(topicId))
    requires |name| > 0 && name[0] != '/'
    ensures UploadPath(inner, name) !in Removed(u, topicId).files
  {
    WithinTrans(UploadPath(inner, name), TopicFolder(inner), TopicFolder(topicId));
  }

  /** Deleting a topic's files twice is the same as deleting them once. */
  lemma RemoveIdempotent(u: UploadTree, topicId: string)
    ensures Removed(Removed(u, topicId), topicId) == Removed(u, topicId)
  {
  }

  /** Upload folders are named by the raw topic while stores are named by
      the normalised one: two topics that differ only by space versus
      hyphen share one vector store yet keep separate upload folders. */
  lemma UploadFolderNotNormalised(topicId: string, i: nat)
    requires i < |topicId| && topicId[i] == ' '
    ensures VectorStore.PersistDirectory(topicId[i := '-']) == VectorStore.PersistDirectory(topicId)
    ensures TopicFolder(topicId[i := '-']) != TopicFolder(topicId)
  {
    VectorStore.SpaceHyphenCollide(topicId, i);
    var other := topicId[i := '-'];
    if |other| > 0 && other[0] == '/' {
      assert TopicFolder(other) == other;
      assert TopicFolder(topicId) == topicId;
    } else {
      JoinInjectiveUploads(other, topicId);
    }
  }

  /** The uploads tree and the vector database are apart only for
      relative topics: an absolute topic already in collection form (no
      space, hyphen or upper-case letter) has the same path as its upload
      folder and as its persist directory. */
  lemma AbsoluteTopicSharesTree(topicId: string)
    requires |topicId| > 0 && topicId[0] == '/'
    requires forall i :: 0 <= i < |topicId| ==> VectorStore.IsCollectionChar(topicId[i])
    ensures TopicFolder(topicId) == VectorStore.PersistDirectory(topicId) == topicId
  {
    var name := VectorStore.CollectionName(topicId);
    forall i | 0 <= i < |name| ensures name[i] == topicId[i] {
      assert name[i] == VectorStore.NormalizeChar(topicId[i]);
    }
  }

  /** Under the relative uploads root, distinct topics have distinct
      folders. */
  lemma JoinInjectiveUploads(a: string, b: string)
    requires a != b
    ensures TopicFolder(a) != TopicFolder(b)
  {
    if TopicFolder(a) == TopicFolder(b) {
      JoinInjective(Config.UPLOADS_PATH, a, b);
    }
  }

  /** A file saved under a name without separators is cited by that name:
      the basename `load_pdf` stamps on its pages is the upload's name. */
  lemma UploadedNameIsSource(topicId: string, file: UploadedFile)
    requires '/' !in file.name
    ensures Basename(UploadPath(topicId, file.name)) == file.name
  {
    BasenameOfJoin(TopicFolder(topicId), file.name);
  }

  // ---------------------------------------------------------------------
  // Loading and splitting, as values
  // ---------------------------------------------------------------------

  /** The pages of a file after `load_pdf` stamps them with the file's
      basename `source`. */
  function Stamped(pages: seq<Document>, source: string): (r: seq<Document>)
    ensures |r| == |pages|
  {
    seq(|pages|, i requires 0 <= i < |pages| => SetMeta(pages[i], "source", Str(source)))
  }

  /** Stamping keeps one document per page, in order: each page's
      "source" is the file's basename, and its text and all other metadata
      are kept. */
  lemma StampedPages(pages: seq<Document>, path: Path)
    ensures |Stamped(pages, Basename(path))| == |pages|
    ensures forall i :: 0 <= i < |pages| ==> StampedWith(Stamped(pages, Basename(path))[i], path)
    ensures forall i :: 0 <= i < |pages| ==> SameExcept(Stamped(pages, Basename(path))[i], pages[i], "source")
  {
    var name := Basename(path);
    var r := Stamped(pages, name);
    forall i | 0 <= i < |pages|
      ensures StampedWith(r[i], path) && SameExcept(r[i], pages[i], "source")
    {
      SetMetaKeepsRest(pages[i], "source", Str(name));
    }
  }

  /** `doc`'s "source" is the basename of `path`. */
  predicate StampedWith(doc: Document, path: Path)
  {
    "source" in doc.metadata && doc.metadata["source"] == Str(Basename(path))
  }

  /** What one file contributes to `load_multiple_pdfs`: its stamped pages
      when loading succeeds, nothing when it raises. */
  function PagesOf(loader: Path -> Result<seq<Document>>, path: Path): (r: seq<Document>)
    ensures loader(path).Failure? ==> r == []
    ensures loader(path).Success? ==> |r| == |loader(path).value|
  {
    match loader(path)
    case Success(pages) => Stamped(pages, Basename(path))
    case Failure(_) => []
  }

  /** The concatenation, in order, of `f` applied to each element. */
  function ConcatMap<T, U>(f: T -> seq<U>, xs: seq<T>): seq<U>
  {
    if xs == [] then [] else ConcatMap(f, xs[..|xs| - 1]) + f(xs[|xs| - 1])
  }

  /** When every element contributes nothing, so does the whole. */
  lemma {:induction false} ConcatMapNothing<T, U>(f: T -> seq<U>, xs: seq<T>)
    requires forall x :: x in xs ==> f(x) == []
    ensures ConcatMap(f, xs) == []
  {
    if xs != [] {
      ConcatMapNothing(f, xs[..|xs| - 1]);
    }
  }

  /** ConcatMap over a concatenation is the concatenation of the two. */
  lemma {:induction false} ConcatMapAppend<T, U>(f: T -> seq<U>, xs: seq<T>, ys: seq<T>)
    ensures ConcatMap(f, xs + ys) == ConcatMap(f, xs) + ConcatMap(f, ys)
  {
    if ys == [] {
      assert xs + ys == xs;
    } else {
      var init := ys[..|ys| - 1];
      assert (xs + ys)[..|xs + ys| - 1] == xs + init;
      ConcatMapAppend(f, xs, init);
    }
  }

  /** The concatenation, in input order, of what each file contributes:
      nothing when every file fails to load. */
  function LoadedPages(loader: Path -> Result<seq<Document>>, paths: seq<Path>): (r: seq<Document>)
    ensures (forall p :: p in paths ==> loader(p).Failure?) ==> r == []
  {
    // Both branches compute the same value; the first only establishes
    // the ensures through ConcatMapNothing.
    if forall p :: p in paths ==> loader(p).Failure? then
      ConcatMapNothing(p => PagesOf(loader, p), paths);
      ConcatMap(p => PagesOf(loader, p), paths)
    else
      ConcatMap(p => PagesOf(loader, p), paths)
  }

  /** Loading a batch is loading its two halves one after the other. */
  lemma LoadedPagesAppend(loader: Path -> Result<seq<Document>>, ps: seq<Path>, qs: seq<Path>)
    ensures LoadedPages(loader, ps + qs) == LoadedPages(loader, ps) + LoadedPages(loader, qs)
  {
    ConcatMapAppend(p => PagesOf(loader, p), ps, qs);
  }

  /** A file that fails to load contributes nothing and does not stop the
      files after it. */
  lemma FailedFileSkipped(loader: Path -> Result<seq<Document>>, ps: seq<Path>, bad: Path, qs: seq<Path>)
    requires loader(bad).Failure?
    ensures LoadedPages(loader, ps + [bad] + qs) == LoadedPages(loader, ps + qs)
  {
    LoadedPagesAppend(loader, ps + [bad], qs);
    LoadedPagesAppend(loader, ps, [bad]);
    LoadedPagesAppend(loader, ps, qs);
    assert LoadedPages(loader, [bad]) == LoadedPages(loader, []) + PagesOf(loader, bad);
  }

  /** Every loaded page comes from a file of the batch that loaded, and
      carries that file's basename as its "source". */
  lemma {:induction false} LoadedPagesSourced(loader: Path -> Result<seq<Document>>, paths: seq<Path>, j: nat)
    requires j < |LoadedPages(loader, paths)|
    ensures exists p :: p in paths && loader(p).Success? && StampedWith(LoadedPages(loader, paths)[j], p)
  {
    var init, last := paths[..|paths| - 1], paths[|paths| - 1];
    var front, back := LoadedPages(loader, init), PagesOf(loader, last);
    var all := LoadedPages(loader, paths);
    assert all == front + back;
    if j < |front| {
      assert all[j] == front[j];
      LoadedPagesSourced(loader, init, j);
      var p :| p in init && loader(p).Success? && StampedWith(front[j], p);
      assert p in paths;
    } else {
      assert all[j] == back[j - |front|];
      assert loader(last).Success?;
      StampedPages(loader(last).value, last);
      assert StampedWith(back[j - |front|], last);
      assert last in paths;
    }
  }

  /** The chunks after `split_documents`' numbering. */
  function Numbered(chunks: seq<Document>): (r: seq<Document>)
    ensures |r| == |chunks|
  {
    seq(|chunks|, i requires 0 <= i < |chunks| => SetMeta(chunks[i], "chunk_id", Int(i)))
  }

  /** Numbering keeps one chunk per split chunk, in order: the chunk at
      position `i` has "chunk_id" `i`, so ids are distinct, and its text and
      other metadata are kept. */
  lemma NumberedChunks(chunks: seq<Document>)
    ensures |Numbered(chunks)| == |chunks|
    ensures forall i :: 0 <= i < |chunks| ==>
      "chunk_id" in Numbered(chunks)[i].metadata && Numbered(chunks)[i].metadata["chunk_id"] == Int(i)
    ensures forall i :: 0 <= i < |chunks| ==> SameExcept(Numbered(chunks)[i], chunks[i], "chunk_id")
    ensures forall i, j :: 0 <= i < j < |chunks| ==>
      Numbered(chunks)[i].metadata["chunk_id"] != Numbered(chunks)[j].metadata["chunk_id"]
  {
    var r := Numbered(chunks);
    forall i | 0 <= i < |chunks|
      ensures "chunk_id" in r[i].metadata && r[i].metadata["chunk_id"] == Int(i)
      ensures SameExcept(r[i], chunks[i], "chunk_id")
    {
      SetMetaKeepsRest(chunks[i], "chunk_id", Int(i));
    }
  }

  // ---------------------------------------------------------------------
  // The processor object
  // ---------------------------------------------------------------------

  /** `DocumentProcessor`. */
  class DocumentProcessor {
    /** The uploads directory on disk. */
    var uploads: UploadTree
    /** `PyPDFLoader(path).load()`: the pages of a PDF, or the message of
        the exception it raises. */
    const pdfLoader: Path -> Result<seq<Document>>
    /** `RecursiveCharacterTextSplitter(CHUNK_SIZE, CHUNK_OVERLAP, ...)`'s
        `split_documents`. */
    const textSplitter: seq<Document> -> seq<Document>

    constructor (uploads: UploadTree, pdfLoader: Path -> Result<seq<Document>>,
                 textSplitter: seq<Document> -> seq<Document>)
      ensures this.uploads == uploads
      ensures this.pdfLoader == pdfLoader && this.textSplitter == textSplitter
    {
      this.uploads := uploads;
      this.pdfLoader := pdfLoader;
      this.textSplitter := textSplitter;
    }

    /** `save_uploaded_file`: writes the upload to `UPLOADS_PATH / topic_id
        / name`, built from the raw topic, and returns that path. */
    method SaveUploadedFile(file: UploadedFile, topicId: string) returns (filePath: Path)
      modifies this
      ensures filePath == UploadPath(topicId, file.name)
      ensures uploads == Saved(old(uploads), topicId, file)
    {
      var topicFolder := Join(Config.UPLOADS_PATH, topicId);
      uploads := uploads.(folders := uploads.folders + {topicFolder});
      filePath := Join(topicFolder, file.name);
      uploads := uploads.(files := uploads.files[filePath := file.buffer]);
    }

    /** `load_pdf`: the loader's pages stamped with the file's basename, or
        an error whose message starts "Error loading PDF " and the path. */
    method LoadPdf(filePath: Path) returns (r: Result<seq<Document>>)
      ensures r.Success? <==> pdfLoader(filePath).Success?
      ensures r.Success? ==> r.value == Stamped(pdfLoader(filePath).value, Basename(filePath))
      ensures r.Failure? ==>
        r.error == "Error loading PDF " + filePath + ": " + pdfLoader(filePath).error
    {
      var loaded := pdfLoader(filePath);
      if loaded.Failure? {
        return Failure("Error loading PDF " + filePath + ": " + loaded.error);
      }
      var documents := loaded.value;
      var name := Basename(filePath);
      var i := 0;
      while i < |documents|
        invariant 0 <= i <= |documents| == |loaded.value|
        invariant forall j :: 0 <= j < i ==> documents[j] == SetMeta(loaded.value[j], "source", Str(name))
        invariant forall j :: i <= j < |documents| ==> documents[j] == loaded.value[j]
      {
        documents := documents[i := SetMeta(documents[i], "source", Str(name))];
        i := i + 1;
      }
      return Success(documents);
    }

    /** `load_multiple_pdfs`: the concatenation, in input order, of the
        stamped pages of exactly the files that load. */
    method LoadMultiplePdfs(filePaths: seq<Path>) returns (allDocuments: seq<Document>)
      ensures allDocuments == LoadedPages(pdfLoader, filePaths)
    {
      allDocuments := [];
      var i := 0;
      while i < |filePaths|
        invariant 0 <= i <= |filePaths|
        invariant allDocuments == LoadedPages(pdfLoader, filePaths[..i])
      {
        var docs := LoadPdf(filePaths[i]);
        if docs.Success? {
          allDocuments := allDocuments + docs.value;
        }
        assert filePaths[..i + 1][..i] == filePaths[..i];
        i := i + 1;
      }
      assert filePaths[..i] == filePaths;
    }

    /** `split_documents`: the splitter's chunks, numbered by position. */
    method SplitDocuments(documents: seq<Document>) returns (chunks: seq<Document>)
      ensures chunks == Numbered(textSplitter(documents))
    {
      chunks := textSplitter(documents);
      ghost var split := chunks;
      var i := 0;
      while i < |chunks|
        invariant 0 <= i <= |chunks| == |split|
        invariant forall j :: 0 <= j < i ==> chunks[j] == SetMeta(split[j], "chunk_id", Int(j))
        invariant forall j :: i <= j < |chunks| ==> chunks[j] == split[j]
      {
        chunks := chunks[i := SetMeta(chunks[i], "chunk_id", Int(i))];
        i := i + 1;
      }
    }

    /** `process_pdfs`: splitting what the batch loader returns. */
    method ProcessPdfs(filePaths: seq<Path>) returns (chunks: seq<Document>)
      ensures chunks == Numbered(textSplitter(LoadedPages(pdfLoader, filePaths)))
    {
      var documents := LoadMultiplePdfs(filePaths);
      chunks := SplitDocuments(documents);
    }

    /** `delete_topic_files`: removes the topic's upload folder tree if it
        exists; afterwards the folder does not exist. */
    method DeleteTopicFiles(topicId: string)
      modifies this
      ensures uploads == Removed(old(uploads), topicId)
      ensures !FolderOnDisk(uploads, TopicFolder(topicId))
    {
      var topicFolder := Join(Config.UPLOADS_PATH, topicId);
      if FolderOnDisk(uploads, topicFolder) {
        uploads := UploadTree(
          set f | f in uploads.folders && f != topicFolder && !Within(f, topicFolder),
          map p | p in uploads.files && !Within(p, topicFolder) :: uploads.files[p]);
      }
    }
  }
}
