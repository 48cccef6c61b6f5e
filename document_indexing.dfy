/**
 * The ingestion tool: reading a PDF into semantic chunks, turning chunks or
 * plain texts into documents, storing documents in batches, clearing the
 * collection and ingesting every file of a directory.
 */
module DocumentIndexing {
  import opened Wrappers
  import opened PyStrings
  import opened PdfText
  import opened Documents

  /** Nodes are stored in batches of this size (progress granularity only). */
  const BATCH_SIZE: nat := 10

  /** The characters a hyphen-broken fragment loses at its end. */
  const HYPHEN_BREAK_CHARS: set<char> := {'-', '\n'}

  /**
   * A text fragment ending in "-\n" is a word broken across lines: it loses its
   * whole trailing run of '-' and '\n' characters, so it joins the next
   * fragment directly; any other fragment is kept as it is.
   */
  function Dehyphenate(text: string): (r: string)
    ensures !EndsWith(text, "-\n") ==> r == text
    ensures EndsWith(text, "-\n") ==>
      && |r| <= |text| - 2
      && r == text[..|r|]
      && (r == [] || r[|r| - 1] !in HYPHEN_BREAK_CHARS)
      && (forall k :: |r| <= k < |text| ==> text[k] in HYPHEN_BREAK_CHARS)
  {
    if EndsWith(text, "-\n") then
      var r := RStripSet(text, HYPHEN_BREAK_CHARS);
      assert text[|text| - 2] == '-' && text[|text| - 1] == '\n';
      r
    else text
  }

  /** `[node.text for node in nodes if node.text.strip()]` */
  function NonBlankChunks(chunks: seq<string>): (r: seq<string>)
    ensures |r| <= |chunks|
    ensures forall i :: 0 <= i < |r| ==> !Blank(r[i])
    decreases |chunks|
  {
    if |chunks| == 0 then []
    else
      var last := |chunks| - 1;
      NonBlankChunks(chunks[..last]) + (if Blank(chunks[last]) then [] else [chunks[last]])
  }

  /** The filter drops exactly the blank chunks: every non-blank chunk survives, and nothing else appears. */
  lemma {:induction false} NonBlankChunksKeepsEveryNonBlank(chunks: seq<string>)
    ensures forall c :: c in chunks && !Blank(c) ==> c in NonBlankChunks(chunks)
    ensures forall c :: c in NonBlankChunks(chunks) ==> c in chunks
    decreases |chunks|
  {
    if |chunks| > 0 {
      var last := |chunks| - 1;
      NonBlankChunksKeepsEveryNonBlank(chunks[..last]);
      assert chunks == chunks[..last] + [chunks[last]];
    }
  }

  /** The filter keeps the splitter's order: it distributes over concatenation. */
  lemma {:induction false} NonBlankChunksKeepsOrder(a: seq<string>, b: seq<string>)
    ensures NonBlankChunks(a + b) == NonBlankChunks(a) + NonBlankChunks(b)
    decreases |b|
  {
    if |b| > 0 {
      var last := |b| - 1;
      assert (a + b)[..|a + b| - 1] == a + b[..last];
      NonBlankChunksKeepsOrder(a, b[..last]);
    } else {
      assert a + b == a;
    }
  }

  /** The semantic splitter (opaque): the chunks of a text, or the message of the exception it raises. */
  type Splitter = string -> Result<seq<string>, string>

  /**
   * What `extract_text_from_pdf` returns. `pages` is the parser's layout, or
   * the message of the exception parsing raised; every exception yields [].
   */
  function ExtractChunks(pages: Result<seq<Page>, string>, pageNumbers: Option<seq<int>>, split: Splitter): seq<string>
  {
    if pages.Failure? then []
    else
      var fullText := Assemble(pages.value, pageNumbers, Dehyphenate);
      if Blank(fullText) then []
      else
        match split(Strip(fullText))
        case Failure(_) => []
        case Success(nodes) => NonBlankChunks(nodes)
  }

  /** Blank text short-circuits: the result is [] whatever the splitter would have done. */
  lemma BlankTextSkipsSplitter(pages: seq<Page>, pageNumbers: Option<seq<int>>, split1: Splitter, split2: Splitter)
    requires Blank(Assemble(pages, pageNumbers, Dehyphenate))
    ensures ExtractChunks(Success(pages), pageNumbers, split1) == []
    ensures ExtractChunks(Success(pages), pageNumbers, split2) == []
  {
  }

  method ExtractTextFromPdf(pages: Result<seq<Page>, string>, pageNumbers: Option<seq<int>>, split: Splitter)
    returns (chunks: seq<string>)
    ensures chunks == ExtractChunks(pages, pageNumbers, split)
    ensures forall i :: 0 <= i < |chunks| ==> !Blank(chunks[i])
    ensures pages.Failure? ==> chunks == []
  {
    if pages.Failure? {
      return [];
    }
    var fullText := AssembleText(pages.value, pageNumbers, Dehyphenate);
    if Blank(fullText) {
      return [];
    }
    var nodes := split(Strip(fullText));
    if nodes.Failure? {
      return [];
    }
    chunks := NonBlankChunks(nodes.value);
  }

  /** `process_documents_from_pdf`: every chunk becomes a pdf document whose paragraph_id is its position. */
  method ProcessDocumentsFromPdf(pdfPath: string, pages: Result<seq<Page>, string>, pageNumbers: Option<seq<int>>, split: Splitter)
    returns (documents: seq<Document>)
    ensures documents == DocumentsFrom(ExtractChunks(pages, pageNumbers, split), pdfPath, ParagraphId, Some(PdfSource))
    ensures var chunks := ExtractChunks(pages, pageNumbers, split);
      && |documents| == |chunks|
      && forall k :: 0 <= k < |documents| ==>
           documents[k] == Document(chunks[k], DocMeta(pdfPath, ParagraphId, k, Some(PdfSource)))
  {
    var paragraphs := ExtractTextFromPdf(pages, pageNumbers, split);
    documents := BuildDocuments(paragraphs, pdfPath, ParagraphId, Some(PdfSource));
    DocumentsFromNonBlank(paragraphs, pdfPath, ParagraphId, Some(PdfSource));
  }

  /** `process_documents_from_text`: non-blank texts become text documents whose text_id is their input position. */
  method ProcessDocumentsFromText(texts: seq<string>, source: string) returns (documents: seq<Document>)
    ensures documents == DocumentsFrom(texts, source, TextId, Some(TextSource))
  {
    documents := BuildDocuments(texts, source, TextId, Some(TextSource));
  }

  function Min(a: int, b: int): int {
    if a <= b then a else b
  }

  /** `nodes[i:i+BATCH_SIZE] for i in range(0, len(nodes), BATCH_SIZE)` */
  function Batches<T>(nodes: seq<T>): seq<seq<T>>
    decreases |nodes|
  {
    if |nodes| == 0 then []
    else
      var n := Min(BATCH_SIZE, |nodes|);
      [nodes[..n]] + Batches(nodes[n..])
  }

  function Flatten<T>(batches: seq<seq<T>>): seq<T>
    decreases |batches|
  {
    if |batches| == 0 then [] else batches[0] + Flatten(batches[1..])
  }

  /**
   * The batches are the slices the loop takes: batch b starts at b * BATCH_SIZE;
   * together they give back the node list in order, each batch holds 1 to
   * BATCH_SIZE nodes, and there are ceil(n / BATCH_SIZE) of them.
   */
  lemma {:induction false} BatchesPartition<T>(nodes: seq<T>)
    ensures Flatten(Batches(nodes)) == nodes
    ensures |Batches(nodes)| == (|nodes| + BATCH_SIZE - 1) / BATCH_SIZE
    decreases |nodes|
  {
    if |nodes| > 0 {
      var n := Min(BATCH_SIZE, |nodes|);
      BatchesPartition(nodes[n..]);
      assert nodes == nodes[..n] + nodes[n..];
    }
  }

  /** Batch b is the slice starting at b * BATCH_SIZE and holds 1 to BATCH_SIZE nodes. */
  lemma {:induction false} BatchesAreSlices<T>(nodes: seq<T>, b: nat)
    requires b < |Batches(nodes)|
    ensures b * BATCH_SIZE < |nodes|
    ensures 0 < |Batches(nodes)[b]| <= BATCH_SIZE
    ensures Batches(nodes)[b] == nodes[b * BATCH_SIZE .. Min(b * BATCH_SIZE + BATCH_SIZE, |nodes|)]
    decreases b
  {
    var n := Min(BATCH_SIZE, |nodes|);
    if b > 0 {
      var rest := nodes[n..];
      assert Batches(nodes)[b] == Batches(rest)[b - 1];
      BatchesAreSlices(rest, b - 1);
      assert n == BATCH_SIZE;
      var start := (b - 1) * BATCH_SIZE;
      assert start + BATCH_SIZE == b * BATCH_SIZE;
      assert rest[start .. Min(start + BATCH_SIZE, |rest|)]
          == nodes[b * BATCH_SIZE .. Min(b * BATCH_SIZE + BATCH_SIZE, |nodes|)];
    }
  }

  /** A position inside the batch that starts at `i` rounds down to `i`. */
  lemma BatchStart(position: nat, i: nat)
    requires i % BATCH_SIZE == 0 && i <= position < i + BATCH_SIZE
    ensures position / BATCH_SIZE * BATCH_SIZE == i
  {
  }

  /** Whether storing fails within the first `n` nodes, given the position of the node whose storage raises. */
  predicate RaisesWithin(failAt: Option<nat>, n: nat) {
    failAt.Some? && failAt.value < n
  }

  /**
   * How many of `n` nodes reach the collection before storage raises: the
   * first batch builds the index in one call, so it is stored whole or not
   * at all; later nodes are inserted one by one.
   */
  function StoredCount(failAt: Option<nat>, n: nat): (stored: nat)
    ensures stored <= n
    ensures !RaisesWithin(failAt, n) ==> stored == n
    ensures RaisesWithin(failAt, n) ==> stored == 0 || stored == failAt.value
  {
    if !RaisesWithin(failAt, n) then n
    else if failAt.value < BATCH_SIZE then 0
    else failAt.value
  }

  /** One file found in the directory: its path and suffix, its parse, and where storing its nodes raises. */
  datatype SourceFile = SourceFile(path: string, suffix: string, pages: Result<seq<Page>, string>, failAt: Option<nat>)

  /** `file_path.suffix.lower() == '.pdf'` */
  predicate IsPdfSuffix(suffix: string) {
    Lower(suffix) == ".pdf"
  }

  function FileDocuments(f: SourceFile, split: Splitter): seq<Document> {
    DocumentsFrom(ExtractChunks(f.pages, None, split), f.path, ParagraphId, Some(PdfSource))
  }

  /** `documents and self.ingest_documents(documents)` for a PDF file. */
  predicate FileSucceeds(f: SourceFile, split: Splitter) {
    var docs := FileDocuments(f, split);
    IsPdfSuffix(f.suffix) && |docs| > 0 && !RaisesWithin(f.failAt, |docs|)
  }

  /** What a file adds to the collection: nothing if it is skipped or has no documents. */
  function FileStored(f: SourceFile, split: Splitter): seq<Document> {
    var docs := FileDocuments(f, split);
    if IsPdfSuffix(f.suffix) && |docs| > 0 then docs[..StoredCount(f.failAt, |docs|)] else []
  }

  /** How many elements satisfy `p`. */
  function CountWhere<T>(xs: seq<T>, p: T -> bool): (n: nat)
    ensures n <= |xs|
    decreases |xs|
  {
    if |xs| == 0 then 0
    else CountWhere(xs[..|xs| - 1], p) + (if p(xs[|xs| - 1]) then 1 else 0)
  }

  /** The count reaches the length exactly when every element satisfies `p`. */
  lemma {:induction false} CountWhereAll<T>(xs: seq<T>, p: T -> bool)
    ensures CountWhere(xs, p) == |xs| <==> forall i :: 0 <= i < |xs| ==> p(xs[i])
    decreases |xs|
  {
    if |xs| > 0 {
      var last := |xs| - 1;
      CountWhereAll(xs[..last], p);
      assert forall i :: 0 <= i < last ==> xs[..last][i] == xs[i];
    }
  }

  function SucceededCount(files: seq<SourceFile>, split: Splitter): nat {
    CountWhere(files, f => FileSucceeds(f, split))
  }

  function DirectoryStored(files: seq<SourceFile>, split: Splitter): seq<Document>
    decreases |files|
  {
    if |files| == 0 then []
    else DirectoryStored(files[..|files| - 1], split) + FileStored(files[|files| - 1], split)
  }

  lemma DirectoryPrefixStep(files: seq<SourceFile>, i: nat, split: Splitter)
    requires i < |files|
    ensures SucceededCount(files[..i + 1], split)
      == SucceededCount(files[..i], split) + (if FileSucceeds(files[i], split) then 1 else 0)
    ensures DirectoryStored(files[..i + 1], split) == DirectoryStored(files[..i], split) + FileStored(files[i], split)
  {
    assert files[..i + 1][..i] == files[..i];
  }

  /** Every file counts as a success exactly when all of them succeed; a skipped file (not .pdf) never does. */
  lemma AllSucceedIffEveryFile(files: seq<SourceFile>, split: Splitter)
    ensures SucceededCount(files, split) == |files| <==> forall i :: 0 <= i < |files| ==> FileSucceeds(files[i], split)
  {
    CountWhereAll(files, f => FileSucceeds(f, split));
  }

  /** The ingestion tool's handle on the Milvus collection. */
  class DataIngestion {
    /** The records the collection holds, in insertion order. */
    var stored: seq<Document>

    /** Connecting with `overwrite=False` keeps what the collection already holds. */
    constructor (existing: seq<Document>)
      ensures stored == existing
    {
      stored := existing;
    }

    /** Recreating the collection with `overwrite=True` empties it; if the backend cannot be reached nothing changes. */
    method ClearDatabase(reachable: bool) returns (ok: bool)
      modifies this
      ensures ok == reachable
      ensures stored == if reachable then [] else old(stored)
    {
      if !reachable {
        return false;
      }
      stored := [];
      ok := true;
    }

    /**
     * One batch, `nodes[i..i + BATCH_SIZE]`: the first builds the index in one
     * call, so it is stored whole or not at all; a later one is inserted node
     * by node, so a failure keeps the nodes before the one that raises.
     */
    method StoreBatch(nodes: seq<Document>, i: nat, failAt: Option<nat>) returns (batchOk: bool)
      requires i < |nodes| && !RaisesWithin(failAt, i)
      modifies this
      ensures batchOk <==> !RaisesWithin(failAt, Min(i + BATCH_SIZE, |nodes|))
      ensures batchOk ==> stored == old(stored) + nodes[i..Min(i + BATCH_SIZE, |nodes|)]
      ensures !batchOk ==> stored == old(stored) + (if i == 0 then [] else nodes[i..failAt.value])
    {
      var end := Min(i + BATCH_SIZE, |nodes|);
      if i == 0 {
        if RaisesWithin(failAt, end) {
          return false;
        }
        stored := stored + nodes[i..end];
        batchOk := true;
      } else {
        batchOk := InsertNodes(nodes, i, end, failAt);
      }
    }

    /**
     * A later batch, `nodes[start..end]`, inserted node by node: every node
     * before the one that raises is stored, and the exception becomes False.
     */
    method InsertNodes(nodes: seq<Document>, start: nat, end: nat, failAt: Option<nat>) returns (inserted: bool)
      requires start <= end <= |nodes|
      requires !RaisesWithin(failAt, start)
      modifies this
      ensures inserted <==> !RaisesWithin(failAt, end)
      ensures inserted ==> stored == old(stored) + nodes[start..end]
      ensures !inserted ==> start <= failAt.value < end && stored == old(stored) + nodes[start..failAt.value]
    {
      var j := start;
      while j < end
        invariant start <= j <= end
        invariant !RaisesWithin(failAt, j)
        invariant stored == old(stored) + nodes[start..j]
      {
        if failAt == Some(j) {
          return false;
        }
        assert nodes[start..j + 1] == nodes[start..j] + [nodes[j]];
        stored := stored + [nodes[j]];
        j := j + 1;
      }
      inserted := true;
    }

    /**
     * Converts documents to nodes (same text and metadata) and stores them
     * batch by batch: the first batch builds the index in one call (all of it
     * is stored or none), later ones insert node by node. `failAt` is the
     * position of the first node whose embedding or storage raises; the
     * exception becomes False. `progress` is what the progress bar has counted.
     */
    method IngestDocuments(documents: seq<Document>, failAt: Option<nat>) returns (ok: bool, progress: nat)
      modifies this
      ensures ok <==> !RaisesWithin(failAt, |documents|)
      ensures stored == old(stored) + documents[..StoredCount(failAt, |documents|)]
      ensures ok ==> progress == |documents| && stored == old(stored) + Flatten(Batches(documents))
      ensures !ok ==> progress == failAt.value / BATCH_SIZE * BATCH_SIZE
    {
      var nodes := documents;
      var i := 0;
      progress := 0;
      while i < |nodes|
        invariant i % BATCH_SIZE == 0
        invariant progress == Min(i, |nodes|)
        invariant !RaisesWithin(failAt, progress)
        invariant stored == old(stored) + nodes[..progress]
      {
        var end := Min(i + BATCH_SIZE, |nodes|);
        var batchOk := StoreBatch(nodes, i, failAt);
        if !batchOk {
          BatchStart(failAt.value, i);
          return false, i;
        }
        assert nodes[..end] == nodes[..i] + nodes[i..end];
        progress := end;
        i := i + BATCH_SIZE;
      }
      assert nodes[..|nodes|] == nodes;
      BatchesPartition(nodes);
      ok := true;
    }

    /** One iteration of the directory loop: skip a non-PDF file, else process it and ingest its documents if there are any. */
    method IngestFile(f: SourceFile, split: Splitter) returns (succeeded: bool)
      modifies this
      ensures succeeded == FileSucceeds(f, split)
      ensures stored == old(stored) + FileStored(f, split)
    {
      if !IsPdfSuffix(f.suffix) {
        return false;
      }
      var documents := ProcessDocumentsFromPdf(f.path, f.pages, None, split);
      if |documents| == 0 {
        return false;
      }
      var ok, _ := IngestDocuments(documents, f.failAt);
      succeeded := ok;
    }

    /**
     * `ingest_from_directory` over the files the glob found. A missing
     * directory or an empty match returns False at once; files whose suffix
     * is not .pdf are skipped but still count in the total.
     */
    method IngestFromDirectory(directoryExists: bool, files: seq<SourceFile>, split: Splitter)
      returns (ok: bool, successCount: nat)
      modifies this
      ensures !directoryExists || files == [] ==> !ok && successCount == 0 && stored == old(stored)
      ensures directoryExists && files != [] ==>
        && successCount == SucceededCount(files, split)
        && stored == old(stored) + DirectoryStored(files, split)
      ensures successCount <= |files|
      ensures ok <==> directoryExists && files != [] && successCount == |files|
    {
      if !directoryExists || files == [] {
        return false, 0;
      }
      successCount := 0;
      var i := 0;
      while i < |files|
        invariant 0 <= i <= |files|
        invariant successCount == SucceededCount(files[..i], split)
        invariant stored == old(stored) + DirectoryStored(files[..i], split)
      {
        DirectoryPrefixStep(files, i, split);
        ghost var prefix := DirectoryStored(files[..i], split);
        ghost var piece := FileStored(files[i], split);
        var succeeded := IngestFile(files[i], split);
        AppendAssoc(old(stored), prefix, piece);
        if succeeded {
          successCount := successCount + 1;
        }
        i := i + 1;
      }
      assert files[..i] == files;
      ok := successCount == |files|;
    }
  }
}
