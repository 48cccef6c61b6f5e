/**
 * The stand-alone RAG system: the older line-based paragraph builder for
 * PDFs, document loading, the API key rule, and the index / query engine
 * state that `query` and `get_relevant_documents` depend on.
 */
module RagMain {
  import opened Wrappers
  import opened PyStrings
  import opened PdfText
  import opened Documents
  import opened Retrieval

  /** `min_line_length`'s default. */
  const MIN_LINE_LENGTH: int := 1

  /** In this front end a text element contributes its text followed by a newline. */
  function LineFragment(text: string): string {
    text + "\n"
  }

  /** A line at least `min_line_length` long enters the paragraph. */
  predicate IsLong(line: string, minLineLength: int) {
    |line| >= minLineLength
  }

  /**
   * What a long line adds to the buffer: a space and the line, or, for a line
   * ending in '-', the line with its hyphens removed at both ends and no space.
   */
  function Piece(line: string): string {
    if EndsWith(line, "-") then StripChar(line, '-') else " " + line
  }

  /** The paragraph loop's state: the closed paragraphs and the open buffer. */
  datatype Gather = Gather(paragraphs: seq<string>, buffer: string)

  /** One line: a long line extends the buffer; a short line closes the buffer, but only when it is non-empty. */
  function Step(g: Gather, line: string, minLineLength: int): Gather {
    if IsLong(line, minLineLength) then Gather(g.paragraphs, g.buffer + Piece(line))
    else if g.buffer != "" then Gather(g.paragraphs + [g.buffer], "")
    else g
  }

  /** The state after the loop has read `lines`; no closed paragraph is empty. */
  function Fold(lines: seq<string>, minLineLength: int): (g: Gather)
    ensures forall i :: 0 <= i < |g.paragraphs| ==> g.paragraphs[i] != ""
    decreases |lines|
  {
    if |lines| == 0 then Gather([], "")
    else Step(Fold(lines[..|lines| - 1], minLineLength), lines[|lines| - 1], minLineLength)
  }

  /** The paragraphs: the closed ones and the final buffer when it is non-empty. None is empty. */
  function Paragraphs(lines: seq<string>, minLineLength: int): (r: seq<string>)
    ensures forall i :: 0 <= i < |r| ==> r[i] != ""
  {
    var g := Fold(lines, minLineLength);
    if g.buffer != "" then g.paragraphs + [g.buffer] else g.paragraphs
  }

  /**
   * Reference definition: cut the lines at every short line and give each run
   * of long lines the text of its pieces; the first run starts before the
   * first line, and a short line always opens a new run.
   */
  function Segments(lines: seq<string>, minLineLength: int): (s: seq<string>)
    ensures |s| >= 1
    decreases |lines|
  {
    if |lines| == 0 then [""]
    else
      var prev := Segments(lines[..|lines| - 1], minLineLength);
      var line := lines[|lines| - 1];
      if IsLong(line, minLineLength) then prev[..|prev| - 1] + [prev[|prev| - 1] + Piece(line)]
      else prev + [""]
  }

  /** The non-empty strings, in order. */
  function NonEmpty(xs: seq<string>): (r: seq<string>)
    ensures |r| <= |xs|
    decreases |xs|
  {
    if |xs| == 0 then []
    else NonEmpty(xs[..|xs| - 1]) + (if xs[|xs| - 1] == "" then [] else [xs[|xs| - 1]])
  }

  /** The pieces of the long lines, in line order. */
  function LongPieces(lines: seq<string>, minLineLength: int): seq<string>
    decreases |lines|
  {
    if |lines| == 0 then []
    else
      var line := lines[|lines| - 1];
      LongPieces(lines[..|lines| - 1], minLineLength) + (if IsLong(line, minLineLength) then [Piece(line)] else [])
  }

  lemma NonEmptyAppend(xs: seq<string>, x: string)
    ensures NonEmpty(xs + [x]) == NonEmpty(xs) + (if x == "" then [] else [x])
  {
    assert (xs + [x])[..|xs|] == xs;
  }

  /** The loop's state: the closed paragraphs are the non-empty finished runs and the buffer is the open run. */
  lemma {:induction false} FoldIsSegments(lines: seq<string>, minLineLength: int)
    ensures var g := Fold(lines, minLineLength);
      var s := Segments(lines, minLineLength);
      && g.paragraphs == NonEmpty(s[..|s| - 1])
      && g.buffer == s[|s| - 1]
    decreases |lines|
  {
    if |lines| > 0 {
      var init := lines[..|lines| - 1];
      var line := lines[|lines| - 1];
      FoldIsSegments(init, minLineLength);
      var prev := Segments(init, minLineLength);
      var s := Segments(lines, minLineLength);
      if IsLong(line, minLineLength) {
        assert s[..|s| - 1] == prev[..|prev| - 1];
      } else {
        assert s[..|s| - 1] == prev;
        assert prev == prev[..|prev| - 1] + [prev[|prev| - 1]];
        NonEmptyAppend(prev[..|prev| - 1], prev[|prev| - 1]);
      }
    }
  }

  /**
   * The paragraphs are exactly the non-empty runs of long lines between short
   * lines, in order: a short line ends a paragraph, and runs of short lines
   * or of lines that contribute nothing never produce an empty one.
   */
  lemma ParagraphsAreNonEmptySegments(lines: seq<string>, minLineLength: int)
    ensures Paragraphs(lines, minLineLength) == NonEmpty(Segments(lines, minLineLength))
  {
    FoldIsSegments(lines, minLineLength);
    var s := Segments(lines, minLineLength);
    assert s == s[..|s| - 1] + [s[|s| - 1]];
    NonEmptyAppend(s[..|s| - 1], s[|s| - 1]);
  }

  lemma ConcatAppend(xs: seq<string>, x: string)
    ensures Concat(xs + [x]) == Concat(xs) + x
  {
    assert (xs + [x])[..|xs|] == xs;
  }

  lemma {:induction false} FoldKeepsPieces(lines: seq<string>, minLineLength: int)
    ensures var g := Fold(lines, minLineLength);
      Concat(g.paragraphs) + g.buffer == Concat(LongPieces(lines, minLineLength))
    decreases |lines|
  {
    if |lines| > 0 {
      var init := lines[..|lines| - 1];
      var line := lines[|lines| - 1];
      FoldKeepsPieces(init, minLineLength);
      var g := Fold(init, minLineLength);
      if IsLong(line, minLineLength) {
        ConcatAppend(LongPieces(init, minLineLength), Piece(line));
      } else {
        assert LongPieces(lines, minLineLength) == LongPieces(init, minLineLength);
        if g.buffer != "" {
          ConcatAppend(g.paragraphs, g.buffer);
          var h := Fold(lines, minLineLength);
          assert h.paragraphs == g.paragraphs + [g.buffer] && h.buffer == "";
          assert Concat(h.paragraphs) + h.buffer == Concat(h.paragraphs);
        }
      }
    }
  }

  /** Nothing is lost or reordered: the paragraphs, joined, are the long lines' pieces, joined. */
  lemma ParagraphsKeepEveryPiece(lines: seq<string>, minLineLength: int)
    ensures Concat(Paragraphs(lines, minLineLength)) == Concat(LongPieces(lines, minLineLength))
  {
    FoldKeepsPieces(lines, minLineLength);
    var g := Fold(lines, minLineLength);
    if g.buffer != "" {
      ConcatAppend(g.paragraphs, g.buffer);
    }
  }

  lemma PieceHasNoNewline(line: string)
    requires '\n' !in line
    ensures '\n' !in Piece(line)
  {
    if EndsWith(line, "-") {
      StripCharSpec(line, '-');
    }
  }

  lemma {:induction false} FoldHasNoNewline(lines: seq<string>, minLineLength: int)
    requires forall i :: 0 <= i < |lines| ==> '\n' !in lines[i]
    ensures var g := Fold(lines, minLineLength);
      '\n' !in g.buffer && forall i :: 0 <= i < |g.paragraphs| ==> '\n' !in g.paragraphs[i]
    decreases |lines|
  {
    if |lines| > 0 {
      var line := lines[|lines| - 1];
      FoldHasNoNewline(lines[..|lines| - 1], minLineLength);
      PieceHasNoNewline(line);
    }
  }

  /** Built from newline-free lines, every paragraph is a single line of text. */
  lemma ParagraphsHaveNoNewline(lines: seq<string>, minLineLength: int)
    requires forall i :: 0 <= i < |lines| ==> '\n' !in lines[i]
    ensures forall i :: 0 <= i < |Paragraphs(lines, minLineLength)| ==> '\n' !in Paragraphs(lines, minLineLength)[i]
  {
    FoldHasNoNewline(lines, minLineLength);
  }

  /** The buffer/paragraph loop over the lines of the full text. */
  method BuildParagraphs(lines: seq<string>, minLineLength: int) returns (paragraphs: seq<string>)
    ensures paragraphs == Paragraphs(lines, minLineLength)
    ensures forall i :: 0 <= i < |paragraphs| ==> paragraphs[i] != ""
  {
    paragraphs := [];
    var buffer := "";
    var i := 0;
    while i < |lines|
      invariant 0 <= i <= |lines|
      invariant Gather(paragraphs, buffer) == Fold(lines[..i], minLineLength)
    {
      var text := lines[i];
      assert lines[..i + 1][..i] == lines[..i];
      if |text| >= minLineLength {
        buffer := buffer + (if !EndsWith(text, "-") then " " + text else StripChar(text, '-'));
      } else if buffer != "" {
        paragraphs := paragraphs + [buffer];
        buffer := "";
      }
      i := i + 1;
    }
    assert lines[..i] == lines;
    if buffer != "" {
      paragraphs := paragraphs + [buffer];
    }
  }

  /** The paragraphs `extract_text_from_pdf` returns for a parsed PDF. */
  function ExtractedParagraphs(pages: seq<Page>, pageNumbers: Option<seq<int>>, minLineLength: int): seq<string> {
    Paragraphs(SplitOn(Assemble(pages, pageNumbers, LineFragment), '\n'), minLineLength)
  }

  /**
   * `extract_text_from_pdf`: each text element of a selected page contributes
   * its text and a newline; the text is split into lines and the lines are
   * gathered into paragraphs. No paragraph is empty or spans two lines.
   */
  method ExtractTextFromPdf(pages: seq<Page>, pageNumbers: Option<seq<int>>, minLineLength: int)
    returns (paragraphs: seq<string>)
    ensures paragraphs == ExtractedParagraphs(pages, pageNumbers, minLineLength)
    ensures forall i :: 0 <= i < |paragraphs| ==> paragraphs[i] != "" && '\n' !in paragraphs[i]
  {
    var fullText := AssembleText(pages, pageNumbers, LineFragment);
    var lines := SplitOn(fullText, '\n');
    paragraphs := BuildParagraphs(lines, minLineLength);
    ParagraphsHaveNoNewline(lines, minLineLength);
  }

  /** `load_documents_from_pdf`: non-blank paragraphs become documents with `paragraph_id` = paragraph position. */
  method LoadDocumentsFromPdf(pdfPath: string, pages: seq<Page>, pageNumbers: Option<seq<int>>)
    returns (documents: seq<Document>)
    ensures documents == DocumentsFrom(ExtractedParagraphs(pages, pageNumbers, MIN_LINE_LENGTH), pdfPath, ParagraphId, None)
  {
    var paragraphs := ExtractTextFromPdf(pages, pageNumbers, MIN_LINE_LENGTH);
    documents := BuildDocuments(paragraphs, pdfPath, ParagraphId, None);
  }

  /** `load_documents_from_text`: non-blank texts become documents with `text_id` = input position. */
  method LoadDocumentsFromText(texts: seq<string>, source: string) returns (documents: seq<Document>)
    ensures documents == DocumentsFrom(texts, source, TextId, None)
  {
    documents := BuildDocuments(texts, source, TextId, None);
  }

  const KEY_MISSING: string := "請在 .env 檔案中設置 OPENAI_API_KEY 或直接傳入 API 金鑰"
  const ENGINE_REQUIRED: string := "請先建立索引後再進行查詢"
  const INDEX_REQUIRED: string := "請先建立索引"
  const RESPONSE_MODE: string := "compact"

  /**
   * The key the system runs with: the argument when one is passed (even an
   * empty one), else the environment's OPENAI_API_KEY; a missing or empty key
   * is the ValueError.
   */
  function ResolveApiKey(keyArg: Option<string>, env: Option<string>): (r: Result<string, string>)
    ensures r.Success? <==> (keyArg.Some? && keyArg.value != "") || (keyArg.None? && env.Some? && env.value != "")
    ensures r.Success? ==> r.value != "" && (keyArg.Some? ==> r.value == keyArg.value) && (keyArg.None? ==> r.value == env.value)
    ensures r.Failure? ==> r.error == KEY_MISSING
  {
    var key := if keyArg.Some? then keyArg else env;
    if key.None? || key.value == "" then Failure(KEY_MISSING) else Success(key.value)
  }

  datatype Backend = MilvusBackend | InMemoryBackend

  /** A built vector index: where its vectors live and the nodes it holds. */
  datatype VectorIndex = VectorIndex(backend: Backend, nodes: seq<string>)

  /** `index.as_query_engine(similarity_top_k=..., response_mode=...)` */
  datatype EngineConfig = EngineConfig(index: VectorIndex, similarityTopK: int, responseMode: string)

  /** The node parser (512-character chunks, 50 overlap): the nodes, or the exception's message. */
  type NodeParser = seq<Document> -> Result<seq<string>, string>

  /** `VectorStoreIndex(nodes, ...)` on a backend: embeds and stores the nodes; None, or the exception's message. */
  type IndexWriter = (Backend, seq<string>) -> Option<string>

  /** Running a query through an engine: the answer text, or the exception's message. */
  type Answerer = (EngineConfig, string) -> Result<string, string>

  /** A retriever over an index with `similarity_top_k = k`: at most k nodes, in rank order. */
  type IndexRetriever = r: (VectorIndex, string, int) -> Result<seq<NodeData>, string>
    | forall ix: VectorIndex, q: string, k: int :: k >= 0 && r(ix, q, k).Success? ==> |r(ix, q, k).value| <= k
    witness (ix: VectorIndex, q: string, k: int) => Success([])

  class RagSystem {
    const apiKey: string
    var useMilvus: bool
    /** Whether `vector_store` holds a Milvus store. */
    var hasVectorStore: bool
    var index: Option<VectorIndex>
    var queryEngine: Option<EngineConfig>

    /** Milvus is in use exactly when its store exists, and an engine always belongs to the current index. */
    ghost predicate Valid()
      reads this
    {
      && apiKey != ""
      && (useMilvus <==> hasVectorStore)
      && (queryEngine.Some? ==> index.Some? && queryEngine.value == EngineConfig(index.value, SIMILARITY_TOP_K, RESPONSE_MODE))
    }

    /** `__init__` once the key is resolved: a failed Milvus start-up turns Milvus off instead of raising. */
    constructor (key: string, useMilvus: bool, milvusInitOk: bool)
      requires key != ""
      ensures Valid()
      ensures apiKey == key
      ensures this.useMilvus == (useMilvus && milvusInitOk)
      ensures index.None? && queryEngine.None?
    {
      apiKey := key;
      this.useMilvus := useMilvus && milvusInitOk;
      hasVectorStore := useMilvus && milvusInitOk;
      index := None;
      queryEngine := None;
    }

    /** Constructing the system: the ValueError for a missing key, else a system with no index yet. */
    static method New(keyArg: Option<string>, env: Option<string>, useMilvus: bool, milvusInitOk: bool)
      returns (r: Result<RagSystem, string>)
      ensures r.Failure? <==> ResolveApiKey(keyArg, env).Failure?
      ensures r.Failure? ==> r.error == KEY_MISSING
      ensures r.Success? ==>
        && fresh(r.value) && r.value.Valid()
        && r.value.apiKey == ResolveApiKey(keyArg, env).value
        && r.value.useMilvus == (useMilvus && milvusInitOk)
        && r.value.index.None? && r.value.queryEngine.None?
    {
      var key := ResolveApiKey(keyArg, env);
      if key.Failure? {
        return Failure(key.error);
      }
      var system := new RagSystem(key.value, useMilvus, milvusInitOk);
      r := Success(system);
    }

    /** The backend `build_index` writes to: Milvus when it is in use and its store exists, memory otherwise. */
    function BuildBackend(): Backend
      reads this
    {
      if useMilvus && hasVectorStore then MilvusBackend else InMemoryBackend
    }

    /**
     * `build_index`: parses the documents into nodes, indexes them (in Milvus
     * when it is in use) and sets both the index and the engine. An exception
     * from the parser or from indexing propagates and leaves the previous
     * index and engine in place.
     */
    method BuildIndex(documents: seq<Document>, parse: NodeParser, write: IndexWriter) returns (r: Result<(), string>)
      requires Valid()
      modifies this
      ensures Valid()
      ensures useMilvus == old(useMilvus) && hasVectorStore == old(hasVectorStore)
      ensures parse(documents).Failure? ==>
        r == Failure(parse(documents).error) && index == old(index) && queryEngine == old(queryEngine)
      ensures parse(documents).Success? && write(BuildBackend(), parse(documents).value).Some? ==>
        r == Failure(write(BuildBackend(), parse(documents).value).value)
        && index == old(index) && queryEngine == old(queryEngine)
      ensures r.Success? <==> parse(documents).Success? && write(BuildBackend(), parse(documents).value).None?
      ensures r.Success? ==>
        && index == Some(VectorIndex(BuildBackend(), parse(documents).value))
        && queryEngine == Some(EngineConfig(index.value, SIMILARITY_TOP_K, RESPONSE_MODE))
    {
      var nodes := parse(documents);
      if nodes.Failure? {
        return Failure(nodes.error);
      }
      var backend: Backend;
      if useMilvus && hasVectorStore {
        backend := MilvusBackend;
      } else {
        backend := InMemoryBackend;
      }
      var raised := write(backend, nodes.value);
      if raised.Some? {
        return Failure(raised.value);
      }
      index := Some(VectorIndex(backend, nodes.value));
      queryEngine := Some(EngineConfig(index.value, SIMILARITY_TOP_K, RESPONSE_MODE));
      r := Success(());
    }

    /** `query`: the ValueError until an index is built, then the engine's answer (or its exception). */
    method Query(question: string, answer: Answerer) returns (r: Result<string, string>)
      requires Valid()
      ensures queryEngine.None? ==> r == Failure(ENGINE_REQUIRED)
      ensures queryEngine.Some? ==>
        r == answer(EngineConfig(index.value, SIMILARITY_TOP_K, RESPONSE_MODE), question)
    {
      if queryEngine.None? {
        return Failure(ENGINE_REQUIRED);
      }
      r := answer(queryEngine.value, question);
    }

    /**
     * `get_relevant_documents`: the ValueError until an index is built, then
     * the texts of the retrieved nodes in retriever order, at most `top_k` of them.
     */
    method GetRelevantDocuments(question: string, topK: int, retrieve: IndexRetriever)
      returns (r: Result<seq<string>, string>)
      ensures index.None? ==> r == Failure(INDEX_REQUIRED)
      ensures index.Some? && retrieve(index.value, question, topK).Failure? ==>
        r == Failure(retrieve(index.value, question, topK).error)
      ensures index.Some? && retrieve(index.value, question, topK).Success? ==>
        var nodes := retrieve(index.value, question, topK).value;
        && r.Success?
        && |r.value| == |nodes|
        && (forall i :: 0 <= i < |nodes| ==> r.value[i] == nodes[i].text)
        && (topK >= 0 ==> |r.value| <= topK)
    {
      if index.None? {
        return Failure(INDEX_REQUIRED);
      }
      var nodes := retrieve(index.value, question, topK);
      if nodes.Failure? {
        return Failure(nodes.error);
      }
      r := Success(NodeTexts(nodes.value));
    }
  }
}
