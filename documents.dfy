/**
 * Documents handed to the index: a text and its metadata. Every loader of
 * the pipeline builds its documents the same way: it walks its inputs with
 * their positions, skips the whitespace-only ones and records the position of
 * each survivor as its id, so ids follow input order and may have gaps.
 */
module Documents {
  import opened Wrappers
  import opened PyStrings

  /** The `source_type` metadata value: "pdf" or "text". */
  datatype SourceType = PdfSource | TextSource

  /** Which metadata key holds the position: "paragraph_id" or "text_id". */
  datatype IdKey = ParagraphId | TextId

  /** The metadata dictionary: `source`, the id under its key, and `source_type` when the loader sets one. */
  datatype DocMeta = DocMeta(source: string, idKey: IdKey, id: nat, sourceType: Option<SourceType>)

  datatype Document = Document(text: string, meta: DocMeta)

  /** The documents the enumerate-and-skip loop appends, for the inputs seen so far. */
  function DocumentsFrom(items: seq<string>, source: string, idKey: IdKey, sourceType: Option<SourceType>): seq<Document>
    decreases |items|
  {
    if |items| == 0 then []
    else
      var last := |items| - 1;
      DocumentsFrom(items[..last], source, idKey, sourceType)
        + (if Blank(items[last]) then []
           else [Document(items[last], DocMeta(source, idKey, last, sourceType))])
  }

  /**
   * Each document is a non-blank input kept verbatim, carrying the loader's
   * source, key and type and its input position as id; ids strictly increase;
   * every non-blank input has its document.
   */
  lemma {:induction false} DocumentsFromItems(items: seq<string>, source: string, idKey: IdKey, sourceType: Option<SourceType>)
    ensures var docs := DocumentsFrom(items, source, idKey, sourceType);
      && |docs| <= |items|
      && (forall k :: 0 <= k < |docs| ==>
            && docs[k].meta.id < |items|
            && docs[k].text == items[docs[k].meta.id]
            && !Blank(docs[k].text)
            && docs[k].meta == DocMeta(source, idKey, docs[k].meta.id, sourceType))
      && (forall j, k :: 0 <= j < k < |docs| ==> docs[j].meta.id < docs[k].meta.id)
      && (forall i :: 0 <= i < |items| && !Blank(items[i]) ==>
            exists k :: 0 <= k < |docs| && docs[k].meta.id == i)
  {
    DocumentsKeepItems(items, source, idKey, sourceType);
    DocumentIdsIncrease(items, source, idKey, sourceType);
    DocumentsCoverItems(items, source, idKey, sourceType);
  }

  /** Each document is a non-blank input, kept verbatim, with its position as id. */
  lemma {:induction false} DocumentsKeepItems(items: seq<string>, source: string, idKey: IdKey, sourceType: Option<SourceType>)
    ensures var docs := DocumentsFrom(items, source, idKey, sourceType);
      && |docs| <= |items|
      && (forall k :: 0 <= k < |docs| ==>
            && docs[k].meta.id < |items|
            && docs[k].text == items[docs[k].meta.id]
            && !Blank(docs[k].text)
            && docs[k].meta == DocMeta(source, idKey, docs[k].meta.id, sourceType))
    decreases |items|
  {
    if |items| > 0 {
      var last := |items| - 1;
      var init := items[..last];
      DocumentsKeepItems(init, source, idKey, sourceType);
      var prev := DocumentsFrom(init, source, idKey, sourceType);
      var docs := DocumentsFrom(items, source, idKey, sourceType);
      forall k | 0 <= k < |docs|
        ensures docs[k].meta.id < |items| && docs[k].text == items[docs[k].meta.id]
      {
        if k < |prev| {
          assert docs[k] == prev[k];
          assert init[prev[k].meta.id] == items[prev[k].meta.id];
        }
      }
    }
  }

  /** Ids strictly increase along the documents. */
  lemma {:induction false} DocumentIdsIncrease(items: seq<string>, source: string, idKey: IdKey, sourceType: Option<SourceType>)
    ensures var docs := DocumentsFrom(items, source, idKey, sourceType);
      forall j, k :: 0 <= j < k < |docs| ==> docs[j].meta.id < docs[k].meta.id
    decreases |items|
  {
    if |items| > 0 {
      var last := |items| - 1;
      var init := items[..last];
      DocumentIdsIncrease(init, source, idKey, sourceType);
      DocumentsKeepItems(init, source, idKey, sourceType);
      var prev := DocumentsFrom(init, source, idKey, sourceType);
      var docs := DocumentsFrom(items, source, idKey, sourceType);
      forall j, k | 0 <= j < k < |docs|
        ensures docs[j].meta.id < docs[k].meta.id
      {
        assert docs[j] == prev[j];
        if k < |prev| {
          assert docs[k] == prev[k];
        }
      }
    }
  }

  /** Every non-blank input has its document. */
  lemma {:induction false} DocumentsCoverItems(items: seq<string>, source: string, idKey: IdKey, sourceType: Option<SourceType>)
    ensures var docs := DocumentsFrom(items, source, idKey, sourceType);
      forall i :: 0 <= i < |items| && !Blank(items[i]) ==>
        exists k :: 0 <= k < |docs| && docs[k].meta.id == i
    decreases |items|
  {
    if |items| > 0 {
      var last := |items| - 1;
      var init := items[..last];
      DocumentsCoverItems(init, source, idKey, sourceType);
      var prev := DocumentsFrom(init, source, idKey, sourceType);
      var docs := DocumentsFrom(items, source, idKey, sourceType);
      forall i | 0 <= i < |items| && !Blank(items[i])
        ensures exists k :: 0 <= k < |docs| && docs[k].meta.id == i
      {
        if i < last {
          assert init[i] == items[i];
          var k :| 0 <= k < |prev| && prev[k].meta.id == i;
          assert docs[k] == prev[k];
        } else {
          assert docs[|prev|].meta.id == i;
        }
      }
      assert docs == DocumentsFrom(items, source, idKey, sourceType);
    }
  }

  /** When no input is blank nothing is skipped: ids are exactly 0, 1, 2, ... */
  lemma {:induction false} DocumentsFromNonBlank(items: seq<string>, source: string, idKey: IdKey, sourceType: Option<SourceType>)
    requires forall i :: 0 <= i < |items| ==> !Blank(items[i])
    ensures var docs := DocumentsFrom(items, source, idKey, sourceType);
      && |docs| == |items|
      && forall k :: 0 <= k < |docs| ==> docs[k] == Document(items[k], DocMeta(source, idKey, k, sourceType))
    decreases |items|
  {
    if |items| > 0 {
      DocumentsFromNonBlank(items[..|items| - 1], source, idKey, sourceType);
    }
  }

  /** The loop itself: `for i, text in enumerate(items): if text.strip(): documents.append(...)`. */
  method BuildDocuments(items: seq<string>, source: string, idKey: IdKey, sourceType: Option<SourceType>)
    returns (documents: seq<Document>)
    ensures documents == DocumentsFrom(items, source, idKey, sourceType)
  {
    documents := [];
    var i := 0;
    while i < |items|
      invariant 0 <= i <= |items|
      invariant documents == DocumentsFrom(items[..i], source, idKey, sourceType)
    {
      assert items[..i + 1][..i] == items[..i];
      if !Blank(items[i]) {
        documents := documents + [Document(items[i], DocMeta(source, idKey, i, sourceType))];
      }
      i := i + 1;
    }
    assert items[..i] == items;
  }
}
