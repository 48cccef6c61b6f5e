/**
 * The HTTP query service: query results with truncated source previews,
 * relevant-document listings with their count, the health status, and the
 * two POST endpoints that reject empty questions before calling the service.
 * Exceptions become HTTP errors.
 */
module QueryService {
  import opened Wrappers
  import opened PyStrings
  import opened Retrieval

  /** A source preview keeps this many characters of a longer text. */
  const PREVIEW_LENGTH: nat := 200
  const ELLIPSIS: string := "..."

  const QUERY_FAILED_PREFIX: string := "查詢處理失敗: "
  const RETRIEVAL_FAILED_PREFIX: string := "文檔檢索失敗: "
  const EMPTY_QUESTION: string := "問題不能為空"

  /** An `HTTPException`: status code and detail message. */
  datatype HttpError = HttpError(status: int, detail: string)

  /** `{"question", "documents", "total_count"}` */
  datatype RelevantDocs = RelevantDocs(question: string, documents: seq<SourceInfo>, totalCount: int)

  /** `{"status", "message"}` */
  datatype Health = Health(status: string, message: string)

  /** `text[:200] + "..." if len(text) > 200 else text` */
  function Preview(text: string): (r: string)
    ensures |text| <= PREVIEW_LENGTH ==> r == text
    ensures |text| > PREVIEW_LENGTH ==>
      |r| == PREVIEW_LENGTH + |ELLIPSIS| && r[..PREVIEW_LENGTH] == text[..PREVIEW_LENGTH] && EndsWith(r, ELLIPSIS)
  {
    if |text| > PREVIEW_LENGTH then text[..PREVIEW_LENGTH] + ELLIPSIS else text
  }

  /** Previewing a preview changes nothing, and a preview is never longer than 203 characters. */
  lemma PreviewIdempotent(text: string)
    ensures Preview(Preview(text)) == Preview(text)
    ensures |Preview(text)| <= PREVIEW_LENGTH + |ELLIPSIS|
  {
    if |text| > PREVIEW_LENGTH {
      var p := Preview(text);
      assert p[..PREVIEW_LENGTH] == text[..PREVIEW_LENGTH];
    }
  }

  /** A source entry of a query result: the node's entry with its text previewed. */
  function PreviewSource(node: NodeData): SourceInfo {
    SourceOf(node).(text := Preview(node.text))
  }

  /** The HTTP error a service failure becomes. */
  function ServerError(prefix: string, message: string): (e: HttpError)
    ensures e.status == 500 && StartsWith(e.detail, prefix) && e.detail[|prefix|..] == message
  {
    HttpError(500, prefix + message)
  }

  class QueryService {
    /** Whether `vector_store` and `index` are set (start-up exits the process if either step raises). */
    const hasVectorStore: bool
    const hasIndex: bool
    const engine: QueryEngine
    const retrieve: Retriever

    constructor (hasVectorStore: bool, hasIndex: bool, engine: QueryEngine, retrieve: Retriever)
      ensures this.hasVectorStore == hasVectorStore && this.hasIndex == hasIndex
      ensures this.engine == engine && this.retrieve == retrieve
    {
      this.hasVectorStore := hasVectorStore;
      this.hasIndex := hasIndex;
      this.engine := engine;
      this.retrieve := retrieve;
    }

    /** What `query` returns, or the HTTP 500 it raises. */
    function QueryOutcome(question: string, topK: Option<int>, elapsed: real): Result<QueryResult, HttpError> {
      match engine(question, EngineTopK(topK))
      case Failure(e) => Failure(ServerError(QUERY_FAILED_PREFIX, e))
      case Success(response) =>
        var nodes := response.sourceNodes;
        Success(QueryResult(question, response.text,
          seq(|nodes|, i requires 0 <= i < |nodes| => PreviewSource(nodes[i])), elapsed))
    }

    /**
     * `query`: the engine at `top_k or 5` answers; one source per source node
     * in order, text previewed, score defaulting to 0.0 and metadata to `{}`.
     * An exception becomes HTTP 500 with the prefixed message.
     */
    method Query(question: string, topK: Option<int>, elapsed: real) returns (r: Result<QueryResult, HttpError>)
      ensures r == QueryOutcome(question, topK, elapsed)
      ensures engine(question, TopKOrDefault(topK)).Failure? ==>
        r == Failure(ServerError(QUERY_FAILED_PREFIX, engine(question, TopKOrDefault(topK)).error))
      ensures engine(question, TopKOrDefault(topK)).Success? ==>
        var response := engine(question, TopKOrDefault(topK)).value;
        && r.Success?
        && r.value.question == question && r.value.answer == response.text && r.value.processingTime == elapsed
        && |r.value.sources| == |response.sourceNodes|
        && forall i :: 0 <= i < |response.sourceNodes| ==>
             && r.value.sources[i].text == Preview(response.sourceNodes[i].text)
             && r.value.sources[i].score == SourceOf(response.sourceNodes[i]).score
             && r.value.sources[i].metadata == SourceOf(response.sourceNodes[i]).metadata
    {
      EngineTopKIsTopKOrDefault(topK);
      var response: Result<Response, string>;
      if UsesCustomTopK(topK) {
        response := engine(question, topK.value);
      } else {
        response := engine(question, SIMILARITY_TOP_K);
      }
      if response.Failure? {
        return Failure(ServerError(QUERY_FAILED_PREFIX, response.error));
      }
      var nodes := response.value.sourceNodes;
      var sources := [];
      var i := 0;
      while i < |nodes|
        invariant 0 <= i <= |nodes|
        invariant |sources| == i
        invariant forall j :: 0 <= j < i ==> sources[j] == PreviewSource(nodes[j])
      {
        sources := sources + [PreviewSource(nodes[i])];
        i := i + 1;
      }
      assert sources == seq(|nodes|, i requires 0 <= i < |nodes| => PreviewSource(nodes[i]));
      r := Success(QueryResult(question, response.value.text, sources, elapsed));
    }

    /** What `get_relevant_documents` returns, or the HTTP 500 it raises. */
    function RelevantOutcome(question: string, topK: Option<int>): Result<RelevantDocs, HttpError> {
      match retrieve(question, EngineTopK(topK))
      case Failure(e) => Failure(ServerError(RETRIEVAL_FAILED_PREFIX, e))
      case Success(nodes) =>
        Success(RelevantDocs(question, Sources(nodes), |nodes|))
    }

    /**
     * `get_relevant_documents`: the retrieved nodes at `top_k or 5`, in
     * retriever order with full text, and `total_count` their number.
     */
    method GetRelevantDocuments(question: string, topK: Option<int>) returns (r: Result<RelevantDocs, HttpError>)
      ensures r == RelevantOutcome(question, topK)
      ensures r.Success? ==>
        && r.value.question == question
        && r.value.totalCount == |r.value.documents|
        && (TopKOrDefault(topK) >= 0 ==> r.value.totalCount <= TopKOrDefault(topK))
      ensures r.Failure? ==> r.error.status == 500 && StartsWith(r.error.detail, RETRIEVAL_FAILED_PREFIX)
    {
      var nodes: Result<seq<NodeData>, string>;
      if UsesCustomTopK(topK) {
        nodes := retrieve(question, topK.value);
      } else {
        nodes := retrieve(question, SIMILARITY_TOP_K);
      }
      if nodes.Failure? {
        return Failure(ServerError(RETRIEVAL_FAILED_PREFIX, nodes.error));
      }
      var documents := CollectSources(nodes.value);
      if TopKOrDefault(topK) >= 0 {
        RetrievalWithinTopK(retrieve, question, topK);
      }
      r := Success(RelevantDocs(question, documents, |documents|));
    }

    /** `health_check`: healthy exactly when both the vector store and the index are set. */
    method HealthCheck() returns (h: Health)
      ensures h.status == "healthy" <==> hasVectorStore && hasIndex
      ensures h.status == "healthy" || h.status == "unhealthy"
    {
      if hasVectorStore && hasIndex {
        h := Health("healthy", "服務正常運行");
      } else {
        h := Health("unhealthy", "服務組件未正確初始化");
      }
    }
  }

  /** `POST /query`: a question that is blank after stripping is a 400 and the service is not called. */
  method QueryEndpoint(service: QueryService, question: string, topK: Option<int>, elapsed: real)
    returns (r: Result<QueryResult, HttpError>)
    ensures Blank(question) ==> r == Failure(HttpError(400, EMPTY_QUESTION))
    ensures !Blank(question) ==> r == service.QueryOutcome(question, topK, elapsed)
  {
    StripSpec(question);
    if Strip(question) == "" {
      return Failure(HttpError(400, EMPTY_QUESTION));
    }
    r := service.Query(question, topK, elapsed);
  }

  /** `POST /relevant-docs`: a question that is blank after stripping is a 400 and the service is not called. */
  method RelevantDocsEndpoint(service: QueryService, question: string, topK: Option<int>)
    returns (r: Result<RelevantDocs, HttpError>)
    ensures Blank(question) ==> r == Failure(HttpError(400, EMPTY_QUESTION))
    ensures !Blank(question) ==> r == service.RelevantOutcome(question, topK)
  {
    StripSpec(question);
    if Strip(question) == "" {
      return Failure(HttpError(400, EMPTY_QUESTION));
    }
    r := service.GetRelevantDocuments(question, topK);
  }
}
