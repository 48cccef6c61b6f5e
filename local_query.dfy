/**
 * The local question-answering system: a query goes either through the
 * prebuilt (or a fresh) query engine, or through retrieve-rerank-generate,
 * where reranked results are matched back to the retrieved nodes by exact
 * text and the rerank score is written into the node in place. Every
 * exception becomes a result; answered queries are logged.
 */
module LocalQuery {
  import opened Wrappers
  import opened PyStrings
  import opened Retrieval
  import opened QueryLogging

  /** The answer of a query that raised is this prefix and the exception's message. */
  const FAILURE_PREFIX: string := "查詢失敗: "

  /** One reranker result: the document's text and its rerank score. */
  datatype RerankResult = RerankResult(document: string, score: real)

  /** The reranker, `rank(question, documents, top_k)`: opaque. */
  type Reranker = (string, seq<string>, int) -> Result<seq<RerankResult>, string>

  /** The LLM completing the prompt built from a context and a question: the text, or the exception's message. */
  type Completion = (string, string) -> Result<string, string>

  /** A retrieved node whose score the rerank reconstruction overwrites. */
  class ScoredNode {
    const text: string
    const metadata: Option<Metadata>
    var score: Option<real>

    constructor (data: NodeData)
      ensures text == data.text && metadata == data.metadata && score == data.score
    {
      text := data.text;
      metadata := data.metadata;
      score := data.score;
    }

    function Data(): NodeData
      reads this
    {
      NodeData(text, score, metadata)
    }
  }

  /** The nodes' texts (fixed for a node's lifetime). */
  function TextsOf(nodes: seq<ScoredNode>): (texts: seq<string>)
    ensures |texts| == |nodes|
  {
    seq(|nodes|, i requires 0 <= i < |nodes| => nodes[i].text)
  }

  /** The nodes' current contents, in order. */
  function DataOf(nodes: seq<ScoredNode>): (r: seq<NodeData>)
    reads set i | 0 <= i < |nodes| :: nodes[i]
    ensures |r| == |nodes|
    ensures forall j :: 0 <= j < |nodes| ==> r[j] == nodes[j].Data()
    decreases |nodes|
  {
    if |nodes| == 0 then []
    else DataOf(nodes[..|nodes| - 1]) + [nodes[|nodes| - 1].Data()]
  }

  /** `(top_k or SIMILARITY_TOP_K) * 2`: reranking retrieves twice as many nodes as it keeps. */
  function RetrieveCount(topK: Option<int>): (k: int)
    ensures topK.Some? && topK.value != 0 ==> k == 2 * topK.value
    ensures topK.None? || topK.value == 0 ==> k == 2 * SIMILARITY_TOP_K
  {
    TopKOrDefault(topK) * 2
  }

  /** The position of the first text equal to `document`, or None. */
  function FirstMatch(texts: seq<string>, document: string): (r: Option<nat>)
    ensures r.Some? ==> r.value < |texts| && texts[r.value] == document
    ensures r.Some? ==> forall j :: 0 <= j < r.value ==> texts[j] != document
    ensures r.None? ==> forall j :: 0 <= j < |texts| ==> texts[j] != document
    decreases |texts|
  {
    if |texts| == 0 then None
    else if texts[0] == document then Some(0)
    else
      match FirstMatch(texts[1..], document)
      case None => None
      case Some(j) => Some(j + 1)
  }

  /** For each rerank result in rerank order, the node it lands on; unmatched results are dropped. */
  function MatchIndices(texts: seq<string>, results: seq<RerankResult>): (idx: seq<nat>)
    ensures |idx| <= |results|
    ensures forall j :: 0 <= j < |idx| ==> idx[j] < |texts|
    decreases |results|
  {
    if |results| == 0 then []
    else
      var last := results[|results| - 1];
      MatchIndices(texts, results[..|results| - 1])
        + (match FirstMatch(texts, last.document) case None => [] case Some(i) => [i])
  }

  /** Node i's score once every result has been applied: the score of the last result landing on it, else its own. */
  function ScoreAfter(texts: seq<string>, results: seq<RerankResult>, i: nat, initial: Option<real>): Option<real>
    decreases |results|
  {
    if |results| == 0 then initial
    else
      var last := results[|results| - 1];
      if FirstMatch(texts, last.document) == Some(i) then Some(last.score)
      else ScoreAfter(texts, results[..|results| - 1], i, initial)
  }

  /** The source nodes of the reranked response: the matched nodes in rerank order, each with its final score. */
  function RerankedData(nodes: seq<NodeData>, results: seq<RerankResult>): (r: seq<NodeData>)
    ensures |r| <= |results|
  {
    var texts := NodeTexts(nodes);
    var idx := MatchIndices(texts, results);
    seq(|idx|, j requires 0 <= j < |idx| =>
      var i := idx[j];
      nodes[i].(score := ScoreAfter(texts, results, i, nodes[i].score)))
  }

  /** `"\n\n".join(result.document for result in rerank_results)` */
  function RerankContext(results: seq<RerankResult>): string {
    JoinWith("\n\n", seq(|results|, j requires 0 <= j < |results| => results[j].document))
  }

  /** Result k lands on node i and no later result does. */
  predicate LastLandingOn(texts: seq<string>, results: seq<RerankResult>, k: int, i: nat) {
    && 0 <= k < |results|
    && FirstMatch(texts, results[k].document) == Some(i)
    && forall m :: k < m < |results| ==> FirstMatch(texts, results[m].document) != Some(i)
  }

  /** A node no rerank result lands on keeps its retrieval score. */
  lemma {:induction false} ScoreAfterUnmatched(texts: seq<string>, results: seq<RerankResult>, i: nat, initial: Option<real>)
    requires forall k :: 0 <= k < |results| ==> FirstMatch(texts, results[k].document) != Some(i)
    ensures ScoreAfter(texts, results, i, initial) == initial
    decreases |results|
  {
    if |results| > 0 {
      var init := results[..|results| - 1];
      assert forall k :: 0 <= k < |init| ==> init[k] == results[k];
      ScoreAfterUnmatched(texts, init, i, initial);
    }
  }

  /**
   * A node's final score is that of the LAST rerank result that lands on it:
   * later results with the same text overwrite earlier ones.
   */
  lemma {:induction false} ScoreAfterIsLastMatch(texts: seq<string>, results: seq<RerankResult>, i: nat, initial: Option<real>, k: nat)
    requires LastLandingOn(texts, results, k, i)
    ensures ScoreAfter(texts, results, i, initial) == Some(results[k].score)
    decreases |results|
  {
    var n := |results| - 1;
    if k < n {
      var init := results[..n];
      assert FirstMatch(texts, results[n].document) != Some(i);
      assert forall m :: 0 <= m < n ==> init[m] == results[m];
      assert LastLandingOn(texts, init, k, i);
      ScoreAfterIsLastMatch(texts, init, i, initial, k);
    }
  }

  /**
   * Reconstruction keeps only retrieved nodes: every reranked source node is
   * some retrieved node with its text and metadata, at most one per result,
   * and the j-th one is the first retrieved node with the text of a result.
   */
  lemma RerankedAreRetrieved(nodes: seq<NodeData>, results: seq<RerankResult>)
    ensures |RerankedData(nodes, results)| <= |results|
    ensures forall j :: 0 <= j < |RerankedData(nodes, results)| ==>
      exists i :: (
        && 0 <= i < |nodes|
        && RerankedData(nodes, results)[j].text == nodes[i].text
        && RerankedData(nodes, results)[j].metadata == nodes[i].metadata)
  {
    var idx := MatchIndices(NodeTexts(nodes), results);
    forall j | 0 <= j < |RerankedData(nodes, results)|
      ensures exists i :: (
        && 0 <= i < |nodes|
        && RerankedData(nodes, results)[j].text == nodes[i].text
        && RerankedData(nodes, results)[j].metadata == nodes[i].metadata)
    {
      var i := idx[j];
      assert RerankedData(nodes, results)[j].text == nodes[i].text;
    }
  }

  /** When every result's document was retrieved, no result is dropped. */
  lemma {:induction false} EveryRetrievedResultKept(texts: seq<string>, results: seq<RerankResult>)
    requires forall k :: 0 <= k < |results| ==> results[k].document in texts
    ensures |MatchIndices(texts, results)| == |results|
    decreases |results|
  {
    if |results| > 0 {
      var init := results[..|results| - 1];
      var last := results[|results| - 1];
      assert forall k :: 0 <= k < |init| ==> init[k] == results[k];
      EveryRetrievedResultKept(texts, init);
      var w :| 0 <= w < |texts| && texts[w] == last.document;
      assert FirstMatch(texts, last.document).Some?;
    }
  }

  /** Two results landing on the same node give the same (aliased) source node, with the same final score. */
  lemma DuplicatesAlias(nodes: seq<NodeData>, results: seq<RerankResult>, a: nat, b: nat)
    requires a < |MatchIndices(NodeTexts(nodes), results)| && b < |MatchIndices(NodeTexts(nodes), results)|
    requires MatchIndices(NodeTexts(nodes), results)[a] == MatchIndices(NodeTexts(nodes), results)[b]
    ensures RerankedData(nodes, results)[a] == RerankedData(nodes, results)[b]
  {
  }

  /** The inner loop: the first node whose text equals the result's document. */
  method FindNode(nodes: seq<ScoredNode>, document: string) returns (found: Option<nat>)
    ensures found == FirstMatch(TextsOf(nodes), document)
  {
    var texts := TextsOf(nodes);
    var j := 0;
    while j < |nodes|
      invariant 0 <= j <= |nodes|
      invariant forall m :: 0 <= m < j ==> texts[m] != document
    {
      if nodes[j].text == document {
        assert texts[j] == document;
        return Some(j);
      }
      j := j + 1;
    }
    return None;
  }

  /** The inner loop for one rerank result: the first node with its text takes its score; no other node changes. */
  method ApplyResult(nodes: seq<ScoredNode>, result: RerankResult) returns (found: Option<nat>)
    requires forall i, j :: 0 <= i < j < |nodes| ==> nodes[i] != nodes[j]
    modifies set i | 0 <= i < |nodes| :: nodes[i]
    ensures found == FirstMatch(TextsOf(nodes), result.document)
    ensures forall i :: 0 <= i < |nodes| ==>
      nodes[i].score == if found == Some(i) then Some(result.score) else old(nodes[i].score)
  {
    found := FindNode(nodes, result.document);
    if found.Some? {
      nodes[found.value].score := Some(result.score);
    }
  }

  /** Applying one more rerank result: it lands on its first matching node, if any. */
  lemma MatchStep(texts: seq<string>, results: seq<RerankResult>, k: nat)
    requires k < |results|
    ensures MatchIndices(texts, results[..k + 1]) == MatchIndices(texts, results[..k])
      + (match FirstMatch(texts, results[k].document) case None => [] case Some(i) => [i])
  {
    assert results[..k + 1][..k] == results[..k];
  }

  /** Applying one more rerank result overwrites the score of the node it lands on and of no other. */
  lemma ScoreStep(texts: seq<string>, results: seq<RerankResult>, k: nat, i: nat, initial: Option<real>)
    requires k < |results|
    ensures ScoreAfter(texts, results[..k + 1], i, initial)
      == if FirstMatch(texts, results[k].document) == Some(i) then Some(results[k].score)
         else ScoreAfter(texts, results[..k], i, initial)
  {
    assert results[..k + 1][..k] == results[..k];
  }

  /**
   * The reconstruction loop: each result, in rerank order, lands on the first
   * node with exactly its text, whose score it overwrites, and that node is
   * appended; results with no such node are dropped.
   */
  method Reconstruct(nodes: seq<ScoredNode>, results: seq<RerankResult>) returns (reranked: seq<ScoredNode>)
    requires forall i, j :: 0 <= i < j < |nodes| ==> nodes[i] != nodes[j]
    modifies set i | 0 <= i < |nodes| :: nodes[i]
    ensures var idx := MatchIndices(TextsOf(nodes), results);
      |reranked| == |idx| && forall j :: 0 <= j < |idx| ==> reranked[j] == nodes[idx[j]]
    ensures forall i :: 0 <= i < |nodes| ==>
      nodes[i].score == ScoreAfter(TextsOf(nodes), results, i, old(nodes[i].score))
  {
    var texts := TextsOf(nodes);
    reranked := [];
    var k := 0;
    while k < |results|
      invariant 0 <= k <= |results|
      invariant var idx := MatchIndices(texts, results[..k]);
        |reranked| == |idx| && forall j :: 0 <= j < |idx| ==> reranked[j] == nodes[idx[j]]
      invariant forall i :: 0 <= i < |nodes| ==>
        nodes[i].score == ScoreAfter(texts, results[..k], i, old(nodes[i].score))
    {
      var result := results[k];
      MatchStep(texts, results, k);
      ghost var before := DataOf(nodes);
      var found := ApplyResult(nodes, result);
      forall i | 0 <= i < |nodes|
        ensures nodes[i].score == ScoreAfter(texts, results[..k + 1], i, old(nodes[i].score))
      {
        ScoreStep(texts, results, k, i, old(nodes[i].score));
        assert nodes[i].score == if found == Some(i) then Some(result.score) else before[i].score;
      }
      if found.Some? {
        reranked := reranked + [nodes[found.value]];
      }
      k := k + 1;
    }
    assert results[..k] == results;
  }

  /** Fresh, distinct node objects holding the retrieved nodes. */
  method WrapNodes(datas: seq<NodeData>) returns (nodes: seq<ScoredNode>)
    ensures |nodes| == |datas|
    ensures forall i :: 0 <= i < |nodes| ==> fresh(nodes[i]) && nodes[i].Data() == datas[i]
    ensures forall i, j :: 0 <= i < j < |nodes| ==> nodes[i] != nodes[j]
  {
    nodes := [];
    var i := 0;
    while i < |datas|
      invariant 0 <= i <= |datas|
      invariant |nodes| == i
      invariant forall m :: 0 <= m < i ==> fresh(nodes[m]) && nodes[m].Data() == datas[m]
      invariant forall m, n :: 0 <= m < n < i ==> nodes[m] != nodes[n]
    {
      var node := new ScoredNode(datas[i]);
      nodes := nodes + [node];
      i := i + 1;
    }
  }

  /** The result of a query that raised: same question, prefixed message, no sources, zero time. */
  function FailureResult(question: string, message: string): (r: QueryResult)
    ensures r.question == question && r.sources == [] && r.processingTime == 0.0
    ensures StartsWith(r.answer, FAILURE_PREFIX) && r.answer[|FAILURE_PREFIX|..] == message
  {
    QueryResult(question, FAILURE_PREFIX + message, [], 0.0)
  }

  /** The log entries an outcome adds: nothing for a failure; the sources note (when shown) and the record otherwise. */
  function QueryLog(outcome: Result<QueryResult, string>, showSources: bool, timestamp: string): seq<LogEntry> {
    match outcome
    case Failure(_) => []
    case Success(r) => (if showSources then [SourcesNote(r.sources)] else []) + [QueryRecord(RecordOf(r, timestamp))]
  }

  /** One interactive command, classified from a line of input. */
  datatype Command =
    | Skip
    | Quit
    | Help
    | Docs(question: string)
    | DocsMissing
    | Ask(question: string)

  /** The dispatch of `interactive_mode` on one line once it is stripped. */
  function ClassifyStripped(input: string): Command {
    var lowered := Lower(input);
    if input == "" then Skip
    else if lowered == "quit" || lowered == "exit" || lowered == "q" then Quit
    else if lowered == "help" then Help
    else if StartsWith(lowered, "docs ") then
      var question := Strip(input[5..]);
      if question != "" then Docs(question) else DocsMissing
    else Ask(input)
  }

  /** The dispatch of `interactive_mode` on one input line: the line is stripped first. */
  function Classify(raw: string): Command {
    ClassifyStripped(Strip(raw))
  }

  /** Whitespace around a command never matters: classifying the stripped input gives the same command. */
  lemma ClassifyIgnoresSurroundingSpace(raw: string)
    ensures Classify(Strip(raw)) == Classify(raw)
  {
    StripIdempotent(raw);
  }

  /** A "docs " prefix has its space at position 4. */
  lemma DocsPrefix(lowered: string)
    requires StartsWith(lowered, "docs ")
    ensures |lowered| >= 5 && lowered[4] == ' '
  {
    assert lowered[..5][4] == ' ';
  }

  lemma DocsLoweredPrefix(input: string)
    requires StartsWith(Lower(input), "docs ")
    ensures |input| >= 5 && Lower(input)[4] == ' '
  {
    DocsPrefix(Lower(input));
  }

  /** An input whose lower-cased form starts with "docs " has a space at position 4. */
  lemma DocsPrefixSpace(input: string)
    requires StartsWith(Lower(input), "docs ")
    ensures |input| >= 5 && input[4] == ' '
  {
    DocsLoweredPrefix(input);
    LowerKeepsSpace(input, 4);
  }

  /** A stripped line starting with "docs " always has a non-blank rest. */
  lemma DocsRestNotBlank(input: string)
    requires input != [] && !IsSpace(input[|input| - 1])
    requires StartsWith(Lower(input), "docs ")
    ensures |input| > 5 && Strip(input[5..]) != ""
  {
    DocsPrefixSpace(input);
    var rest := input[5..];
    assert rest[|rest| - 1] == input[|input| - 1];
    StripSpec(rest);
  }

  /**
   * The "please give a question" branch cannot be reached: a stripped input
   * starting with "docs " ends in a non-space character after position 4, so
   * what follows the prefix is never blank.
   */
  lemma DocsQuestionNeverMissing(raw: string)
    ensures Classify(raw) != DocsMissing
  {
    if Classify(raw) == DocsMissing {
      var input := Strip(raw);
      StripSpec(raw);
      assert input != "" && StartsWith(Lower(input), "docs ") && Strip(input[5..]) == "";
      DocsRestNotBlank(input);
      assert false;
    }
  }

  /** The command of every input line, in order. */
  function Commands(inputs: seq<string>): (commands: seq<Command>)
    ensures |commands| == |inputs|
  {
    seq(|inputs|, i requires 0 <= i < |inputs| => Classify(inputs[i]))
  }

  /** The commands processed from position i on: up to and including the first Quit. */
  function SessionFrom(commands: seq<Command>, i: nat): seq<Command>
    decreases |commands| - i
  {
    if i >= |commands| then []
    else if commands[i] == Quit then [Quit]
    else [commands[i]] + SessionFrom(commands, i + 1)
  }

  /** A command other than Quit is processed and the session goes on with the next one. */
  lemma SessionStep(commands: seq<Command>, i: nat)
    requires i < |commands| && commands[i] != Quit
    ensures SessionFrom(commands, i) == [commands[i]] + SessionFrom(commands, i + 1)
  {
  }

  /** Without a Quit, every command from `start` on is processed, in order. */
  lemma {:induction false} SessionWithoutQuit(commands: seq<Command>, start: nat)
    requires start <= |commands|
    requires forall j :: start <= j < |commands| ==> commands[j] != Quit
    ensures |SessionFrom(commands, start)| == |commands| - start
    ensures forall j :: start <= j < |commands| ==> SessionFrom(commands, start)[j - start] == commands[j]
    decreases |commands| - start
  {
    if start < |commands| {
      SessionStep(commands, start);
      SessionWithoutQuit(commands, start + 1);
    }
  }

  /** Quit ends the session: when command q is the first Quit, exactly commands start..q are processed, in order. */
  lemma {:induction false} SessionStopsAtFirstQuit(commands: seq<Command>, start: nat, q: nat)
    requires start <= q < |commands| && commands[q] == Quit
    requires forall j :: start <= j < q ==> commands[j] != Quit
    ensures |SessionFrom(commands, start)| == q - start + 1
    ensures forall j :: start <= j <= q ==> SessionFrom(commands, start)[j - start] == commands[j]
    decreases q - start
  {
    if start < q {
      SessionStep(commands, start);
      SessionStopsAtFirstQuit(commands, start + 1, q);
    }
  }

  class LocalQuerySystem {
    const retrieve: Retriever
    const engine: QueryEngine
    const rerank: Reranker
    const complete: Completion
    const queryLogger: QueryLogger

    /**
     * A system whose start-up succeeded: the shared logger named
     * "LocalQuerySystem", which `getLogger` hands back for the default name,
     * gets its file handler (console output off); the collaborators are given.
     */
    constructor (logger: Logger, date: string, retrieve: Retriever, engine: QueryEngine, rerank: Reranker, complete: Completion)
      requires logger.name == DEFAULT_LOGGER_NAME
      modifies logger
      ensures queryLogger.loggerName == DEFAULT_LOGGER_NAME
      ensures this.retrieve == retrieve && this.engine == engine
      ensures this.rerank == rerank && this.complete == complete
      ensures queryLogger.logger == logger && !queryLogger.enableConsole
      ensures queryLogger.logDir == DEFAULT_LOG_DIR
      ensures logger.handlers == InstallHandler(old(logger.handlers), FileHandler(LogFilePath(DEFAULT_LOG_DIR, date)))
      ensures logger.entries == old(logger.entries)
    {
      this.retrieve := retrieve;
      this.engine := engine;
      this.rerank := rerank;
      this.complete := complete;
      queryLogger := new QueryLogger(logger, DEFAULT_LOG_DIR, false, date);
    }

    /** The rerank path: retrieve 2k nodes, rerank their texts keeping k, answer from the joined context, rebuild the source nodes. */
    function RerankResponse(question: string, topK: Option<int>): Result<Response, string> {
      match retrieve(question, RetrieveCount(topK))
      case Failure(e) => Failure(e)
      case Success(nodes) =>
        match rerank(question, NodeTexts(nodes), TopKOrDefault(topK))
        case Failure(e) => Failure(e)
        case Success(results) =>
          match complete(RerankContext(results), question)
          case Failure(e) => Failure(e)
          case Success(text) => Success(Response(text, RerankedData(nodes, results)))
    }

    /** The response a query gets, or the message of the exception it raised. */
    function ResponseFor(question: string, topK: Option<int>, useRerank: bool): Result<Response, string> {
      if useRerank then RerankResponse(question, topK) else engine(question, EngineTopK(topK))
    }

    /** What `query` returns when nothing raised, or the exception's message. */
    function Outcome(question: string, topK: Option<int>, showSources: bool, useRerank: bool, elapsed: real): Result<QueryResult, string> {
      match ResponseFor(question, topK, useRerank)
      case Failure(e) => Failure(e)
      case Success(response) =>
        Success(QueryResult(question, response.text,
          if showSources then Sources(response.sourceNodes) else [],
          elapsed))
    }

    /** The result `query` returns: the outcome, or the failure result for its exception. */
    function Answer(question: string, topK: Option<int>, showSources: bool, useRerank: bool, elapsed: real): QueryResult {
      match Outcome(question, topK, showSources, useRerank, elapsed)
      case Failure(e) => FailureResult(question, e)
      case Success(r) => r
    }

    /**
     * Every query returns a well-formed result for its own question. Sources
     * are empty unless they are shown; shown, there is one per source node of
     * the response, in order, with the defaults for a missing score or
     * metadata. A query that raised answers with the prefixed message, no
     * sources and zero time.
     */
    lemma AnswerShape(question: string, topK: Option<int>, showSources: bool, useRerank: bool, elapsed: real)
      ensures var r := Answer(question, topK, showSources, useRerank, elapsed);
        && r.question == question
        && (!showSources ==> r.sources == [])
        && (ResponseFor(question, topK, useRerank).Failure? ==>
              r == FailureResult(question, ResponseFor(question, topK, useRerank).error))
        && (ResponseFor(question, topK, useRerank).Success? ==>
              var nodes := ResponseFor(question, topK, useRerank).value.sourceNodes;
              && r.answer == ResponseFor(question, topK, useRerank).value.text
              && r.processingTime == elapsed
              && (showSources ==> |r.sources| == |nodes| && forall i :: 0 <= i < |nodes| ==> r.sources[i] == SourceOf(nodes[i])))
    {
    }

    /**
     * Without rerank, the answer comes from the engine at `top_k or 5`,
     * whether a fresh engine was built or the prebuilt one was used.
     */
    lemma PlainQueryUsesTopKOrDefault(question: string, topK: Option<int>)
      ensures ResponseFor(question, topK, false) == engine(question, TopKOrDefault(topK))
    {
      EngineTopKIsTopKOrDefault(topK);
    }

    /** With rerank, the source nodes are retrieved nodes, at most one per rerank result. */
    lemma RerankSourcesAreRetrieved(question: string, topK: Option<int>)
      requires RerankResponse(question, topK).Success?
      ensures var nodes := retrieve(question, RetrieveCount(topK));
        && nodes.Success?
        && var results := rerank(question, NodeTexts(nodes.value), TopKOrDefault(topK));
        && results.Success?
        && var sources := RerankResponse(question, topK).value.sourceNodes;
        && |sources| <= |results.value|
        && forall j :: 0 <= j < |sources| ==>
             exists i :: 0 <= i < |nodes.value| && sources[j].text == nodes.value[i].text
    {
      var nodes := retrieve(question, RetrieveCount(topK)).value;
      var results := rerank(question, NodeTexts(nodes), TopKOrDefault(topK)).value;
      RerankedAreRetrieved(nodes, results);
    }

    /** The rerank path, run over fresh node objects. */
    method RerankQuery(question: string, topK: Option<int>) returns (response: Result<Response, string>)
      ensures response == RerankResponse(question, topK)
    {
      var retrieved := retrieve(question, TopKOrDefault(topK) * 2);
      if retrieved.Failure? {
        return Failure(retrieved.error);
      }
      var nodes := WrapNodes(retrieved.value);
      var documents := NodeTexts(retrieved.value);
      var ranked := rerank(question, documents, TopKOrDefault(topK));
      if ranked.Failure? {
        return Failure(ranked.error);
      }
      var context := RerankContext(ranked.value);
      var text := complete(context, question);
      if text.Failure? {
        return Failure(text.error);
      }
      assert TextsOf(nodes) == documents;
      var reranked := Reconstruct(nodes, ranked.value);
      var sourceNodes := DataOf(reranked);
      assert sourceNodes == RerankedData(retrieved.value, ranked.value);
      response := Success(Response(text.value, sourceNodes));
    }

    /** The response of a query: the rerank path, a fresh engine for a custom `top_k`, or the prebuilt engine. */
    method Respond(question: string, topK: Option<int>, useRerank: bool) returns (response: Result<Response, string>)
      ensures response == ResponseFor(question, topK, useRerank)
    {
      if useRerank {
        response := RerankQuery(question, topK);
      } else if UsesCustomTopK(topK) {
        response := engine(question, topK.value);
      } else {
        response := engine(question, SIMILARITY_TOP_K);
      }
    }

    /**
     * `query`: the response (reranked or not), its sources when they are
     * shown, and the log entries; any exception becomes the failure result
     * and logs nothing.
     */
    method Query(question: string, topK: Option<int>, showSources: bool, useRerank: bool, elapsed: real, timestamp: string)
      returns (result: QueryResult)
      modifies queryLogger.logger
      ensures result == Answer(question, topK, showSources, useRerank, elapsed)
      ensures queryLogger.logger.entries == old(queryLogger.logger.entries)
        + QueryLog(Outcome(question, topK, showSources, useRerank, elapsed), showSources, timestamp)
      ensures queryLogger.logger.handlers == old(queryLogger.logger.handlers)
    {
      var response := Respond(question, topK, useRerank);
      if response.Failure? {
        return FailureResult(question, response.error);
      }
      var sources := [];
      if showSources {
        sources := CollectSources(response.value.sourceNodes);
        queryLogger.LogSourcesNote(sources);
      }
      result := QueryResult(question, response.value.text, sources, elapsed);
      var _ := queryLogger.LogQueryResult(result, timestamp);
    }

    /** The documents `get_relevant_documents` returns: the retrieved nodes as entries, or [] if retrieval raised. */
    function RelevantDocuments(question: string, topK: Option<int>): seq<SourceInfo> {
      match retrieve(question, EngineTopK(topK))
      case Failure(_) => []
      case Success(nodes) => Sources(nodes)
    }

    /** `get_relevant_documents`: at `top_k or 5` nodes at most, in retriever order, full text. */
    method GetRelevantDocuments(question: string, topK: Option<int>) returns (documents: seq<SourceInfo>)
      ensures documents == RelevantDocuments(question, topK)
      ensures TopKOrDefault(topK) >= 0 ==> |documents| <= TopKOrDefault(topK)
    {
      var nodes: Result<seq<NodeData>, string>;
      if UsesCustomTopK(topK) {
        nodes := retrieve(question, topK.value);
      } else {
        nodes := retrieve(question, SIMILARITY_TOP_K);
      }
      if nodes.Failure? {
        return [];
      }
      documents := CollectSources(nodes.value);
      if TopKOrDefault(topK) >= 0 {
        RetrievalWithinTopK(retrieve, question, topK);
      }
    }

    /** The log entries a batch adds: each question's, in order. */
    function BatchLog(questions: seq<string>, elapsed: nat -> real, timestamp: nat -> string): seq<LogEntry>
      decreases |questions|
    {
      if |questions| == 0 then []
      else
        var i := |questions| - 1;
        BatchLog(questions[..i], elapsed, timestamp)
          + QueryLog(Outcome(questions[i], None, false, false, elapsed(i)), false, timestamp(i))
    }

    /**
     * `batch_query`: one result per question, in input order, each from a
     * query with the default top-k, no sources and no rerank. Question i's
     * clock and timestamp readings are `elapsed(i)` and `timestamp(i)`.
     */
    method BatchQuery(questions: seq<string>, elapsed: nat -> real, timestamp: nat -> string) returns (results: seq<QueryResult>)
      modifies queryLogger.logger
      ensures |results| == |questions|
      ensures forall i :: 0 <= i < |questions| ==> results[i] == Answer(questions[i], None, false, false, elapsed(i))
      ensures queryLogger.logger.entries == old(queryLogger.logger.entries) + BatchLog(questions, elapsed, timestamp)
      ensures queryLogger.logger.handlers == old(queryLogger.logger.handlers)
    {
      results := [];
      var i := 0;
      while i < |questions|
        invariant 0 <= i <= |questions|
        invariant |results| == i
        invariant forall j :: 0 <= j < i ==> results[j] == Answer(questions[j], None, false, false, elapsed(j))
        invariant queryLogger.logger.entries == old(queryLogger.logger.entries) + BatchLog(questions[..i], elapsed, timestamp)
        invariant queryLogger.logger.handlers == old(queryLogger.logger.handlers)
      {
        assert questions[..i + 1][..i] == questions[..i];
        ghost var before := queryLogger.logger.entries;
        var result := Query(questions[i], None, false, false, elapsed(i), timestamp(i));
        AppendAssoc(old(queryLogger.logger.entries), BatchLog(questions[..i], elapsed, timestamp),
          QueryLog(Outcome(questions[i], None, false, false, elapsed(i)), false, timestamp(i)));
        results := results + [result];
        i := i + 1;
      }
      assert questions[..i] == questions;
    }

    /** The log entries one dispatched command adds: a question's query entries, nothing for the others. */
    function StepLog(command: Command, i: nat, elapsed: nat -> real, timestamp: nat -> string): seq<LogEntry> {
      match command
      case Ask(q) => QueryLog(Outcome(q, None, true, false, elapsed(i)), true, timestamp(i))
      case _ => []
    }

    /** The log entries an interactive session adds from command `i` on: each question's, until Quit. */
    function SessionLog(commands: seq<Command>, i: nat, elapsed: nat -> real, timestamp: nat -> string): seq<LogEntry>
      decreases |commands| - i
    {
      if i >= |commands| || commands[i] == Quit then []
      else StepLog(commands[i], i, elapsed, timestamp) + SessionLog(commands, i + 1, elapsed, timestamp)
    }

    /** Command i of a session either ends it (Quit) or is processed, its entries logged, before the rest. */
    lemma SessionAdvance(commands: seq<Command>, i: nat, elapsed: nat -> real, timestamp: nat -> string)
      requires i < |commands|
      ensures commands[i] == Quit ==>
        SessionFrom(commands, i) == [Quit] && SessionLog(commands, i, elapsed, timestamp) == []
      ensures commands[i] != Quit ==>
        && SessionFrom(commands, i) == [commands[i]] + SessionFrom(commands, i + 1)
        && SessionLog(commands, i, elapsed, timestamp)
          == StepLog(commands[i], i, elapsed, timestamp) + SessionLog(commands, i + 1, elapsed, timestamp)
    {
    }

    /**
     * One non-quit command of `interactive_mode`: a question is answered with
     * sources shown, `docs` retrieves, the others only print.
     */
    method Dispatch(command: Command, i: nat, elapsed: nat -> real, timestamp: nat -> string)
      requires command != Quit
      modifies queryLogger.logger
      ensures queryLogger.logger.entries == old(queryLogger.logger.entries) + StepLog(command, i, elapsed, timestamp)
      ensures queryLogger.logger.handlers == old(queryLogger.logger.handlers)
    {
      match command {
        case Ask(question) =>
          var _ := Query(question, None, true, false, elapsed(i), timestamp(i));
        case Docs(question) =>
          var _ := GetRelevantDocuments(question, None);
        case _ =>
      }
    }

    /**
     * `interactive_mode` over the lines typed: each line is classified and
     * dispatched until Quit. Returns the commands processed; input i's clock
     * and timestamp readings are `elapsed(i)` and `timestamp(i)`.
     */
    method InteractiveMode(inputs: seq<string>, elapsed: nat -> real, timestamp: nat -> string) returns (dispatched: seq<Command>)
      modifies queryLogger.logger
      ensures dispatched == SessionFrom(Commands(inputs), 0)
      ensures queryLogger.logger.entries == old(queryLogger.logger.entries) + SessionLog(Commands(inputs), 0, elapsed, timestamp)
      ensures queryLogger.logger.handlers == old(queryLogger.logger.handlers)
    {
      ghost var commands := Commands(inputs);
      ghost var start := queryLogger.logger.entries;
      dispatched := [];
      var i := 0;
      while i < |inputs|
        invariant 0 <= i <= |inputs|
        invariant dispatched + SessionFrom(commands, i) == SessionFrom(commands, 0)
        invariant queryLogger.logger.entries + SessionLog(commands, i, elapsed, timestamp)
          == start + SessionLog(commands, 0, elapsed, timestamp)
        invariant queryLogger.logger.handlers == old(queryLogger.logger.handlers)
        decreases |inputs| - i
      {
        var command := Classify(inputs[i]);
        SessionAdvance(commands, i, elapsed, timestamp);
        if command == Quit {
          dispatched := dispatched + [Quit];
          return;
        }
        ghost var before := queryLogger.logger.entries;
        Dispatch(command, i, elapsed, timestamp);
        AppendAssoc(before, StepLog(command, i, elapsed, timestamp), SessionLog(commands, i + 1, elapsed, timestamp));
        AppendAssoc(dispatched, [command], SessionFrom(commands, i + 1));
        dispatched := dispatched + [command];
        i := i + 1;
      }
    }
  }
}
