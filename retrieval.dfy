/**
 * What the query side shares: the nodes the vector index hands back, the
 * source entries built from them, the query result record, the opaque
 * retriever and query engine, and the rule that picks the number of nodes
 * to retrieve from an optional `top_k`.
 */
module Retrieval {
  import opened Wrappers

  /** The default number of nodes a query retrieves. */
  const SIMILARITY_TOP_K: int := 5

  /** A metadata value as the indexers write them (a source path or an id). */
  datatype MetaValue = MetaText(text: string) | MetaNumber(number: int)

  type Metadata = map<string, MetaValue>

  /**
   * A node as the index returns it. `score` and `metadata` are None when the
   * node has no such attribute at all.
   */
  datatype NodeData = NodeData(text: string, score: Option<real>, metadata: Option<Metadata>)

  /** One entry of a `sources` or `documents` list: `{"text", "score", "metadata"}`. */
  datatype SourceInfo = SourceInfo(text: string, score: real, metadata: Metadata)

  /** What the query engine returns: the answer text and the nodes it was drawn from. */
  datatype Response = Response(text: string, sourceNodes: seq<NodeData>)

  /** `{"question", "answer", "sources", "processing_time"}` */
  datatype QueryResult = QueryResult(question: string, answer: string, sources: seq<SourceInfo>, processingTime: real)

  /**
   * The vector retriever built over the index with `similarity_top_k = k`:
   * the question's nodes in rank order, at most k of them, or the message of
   * the exception it raised.
   */
  type Retriever = r: (string, int) -> Result<seq<NodeData>, string>
    | forall q: string, k: int :: k >= 0 && r(q, k).Success? ==> |r(q, k).value| <= k
    witness (q: string, k: int) => Success([])

  /**
   * The index's query engine built with `similarity_top_k = k` (retrieval,
   * prompt and LLM call all inside): the response, or the exception's message.
   * The engine built once at start-up is this engine at SIMILARITY_TOP_K.
   */
  type QueryEngine = (string, int) -> Result<Response, string>

  /** `node.score if hasattr(node, 'score') else 0.0`, and `{}` for missing metadata. */
  function SourceOf(node: NodeData): SourceInfo {
    SourceInfo(
      node.text,
      if node.score.Some? then node.score.value else 0.0,
      if node.metadata.Some? then node.metadata.value else map[])
  }

  /** `[node.text for node in nodes]` */
  function NodeTexts(nodes: seq<NodeData>): (texts: seq<string>)
    ensures |texts| == |nodes|
  {
    seq(|nodes|, i requires 0 <= i < |nodes| => nodes[i].text)
  }

  /** The entries of a list of nodes, one per node, in order. */
  function Sources(nodes: seq<NodeData>): seq<SourceInfo> {
    seq(|nodes|, i requires 0 <= i < |nodes| => SourceOf(nodes[i]))
  }

  /**
   * The append loop over the nodes: one entry per node, in node order, with
   * the full text, the score defaulting to 0.0 and the metadata to `{}`.
   */
  method CollectSources(nodes: seq<NodeData>) returns (sources: seq<SourceInfo>)
    ensures sources == Sources(nodes)
    ensures |sources| == |nodes|
    ensures forall i :: 0 <= i < |nodes| ==>
      && sources[i].text == nodes[i].text
      && sources[i].score == (if nodes[i].score.Some? then nodes[i].score.value else 0.0)
      && sources[i].metadata == (if nodes[i].metadata.Some? then nodes[i].metadata.value else map[])
  {
    sources := [];
    var i := 0;
    while i < |nodes|
      invariant 0 <= i <= |nodes|
      invariant |sources| == i
      invariant forall j :: 0 <= j < i ==> sources[j] == SourceOf(nodes[j])
    {
      sources := sources + [SourceOf(nodes[i])];
      i := i + 1;
    }
  }

  /** `top_k or SIMILARITY_TOP_K`: None and 0 mean the default; any other value, negative ones included, is kept. */
  function TopKOrDefault(topK: Option<int>): (k: int)
    ensures k != 0
    ensures topK.Some? && topK.value != 0 ==> k == topK.value
    ensures topK.None? || topK.value == 0 ==> k == SIMILARITY_TOP_K
  {
    if topK.None? || topK.value == 0 then SIMILARITY_TOP_K else topK.value
  }

  /** `top_k and top_k != SIMILARITY_TOP_K`: a fresh engine or retriever is built for this query. */
  predicate UsesCustomTopK(topK: Option<int>) {
    topK.Some? && topK.value != 0 && topK.value != SIMILARITY_TOP_K
  }

  /** The `similarity_top_k` of the engine or retriever that serves the query: the fresh one's, or the prebuilt one's. */
  function EngineTopK(topK: Option<int>): int {
    if UsesCustomTopK(topK) then topK.value else SIMILARITY_TOP_K
  }

  /**
   * Building a fresh engine only for a truthy `top_k` other than the default
   * changes nothing observable: the query is always served at `top_k or 5`,
   * the same count the rerank path uses.
   */
  lemma EngineTopKIsTopKOrDefault(topK: Option<int>)
    ensures EngineTopK(topK) == TopKOrDefault(topK)
    ensures UsesCustomTopK(topK) <==> TopKOrDefault(topK) != SIMILARITY_TOP_K
  {
  }

  /** Whatever `top_k` is, a retrieval at the engine's count returns at most `top_k or 5` nodes when that is not negative. */
  lemma RetrievalWithinTopK(retrieve: Retriever, question: string, topK: Option<int>)
    requires TopKOrDefault(topK) >= 0
    ensures retrieve(question, EngineTopK(topK)).Success? ==>
      |retrieve(question, EngineTopK(topK)).value| <= TopKOrDefault(topK)
  {
    EngineTopKIsTopKOrDefault(topK);
  }
}
