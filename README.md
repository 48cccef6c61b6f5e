# RAG system core, modelled in Dafny

This project models the core of a retrieval-augmented question-answering system built on LlamaIndex.

It covers six parts of the system:

- **Ingestion** (`document_indexing.py`). A PDF's text-container elements are assembled page by page, optionally restricted to chosen page numbers. A line broken by a hyphen is rejoined. A blank text yields no chunks. Otherwise the stripped text goes to a semantic splitter, and blank chunks are dropped. Every remaining chunk becomes a `Document` carrying its source, its `paragraph_id` or `text_id`, and its `source_type`. Documents are stored in batches of 10. The first batch builds the index in one call; later batches are inserted node by node. A directory ingest counts the files that were stored successfully.
- **The simple system** (`main.py`). The API key is resolved from the argument or, failing that, from the environment. Lines are folded into paragraphs: lines at least `min_line_length` long are joined, with a hyphen-ended line glued without a space, and a short line closes the paragraph. The index is built in memory or on Milvus, and the query engine at top 5 in "compact" mode. Queries need an engine, and retrieval needs an index.
- **The local query system** (`local_query.py`). A query uses the prebuilt engine, or a fresh one for a custom `top_k`, or the rerank path: retrieve twice `top_k or 5` nodes, rerank them, answer from the reranked context, and rebuild the reranked nodes with their new scores. Sources are collected, the query is logged, and any exception becomes a failure result. Batch queries and the interactive command loop are included.
- **The query log** (`logging_config.py`). A logger gets at most one file handler. Each record copies the result's question, answer and processing time, with its sources ranked from 1.
- **The HTTP service** (`query_service.py`). Queries return sources whose text is previewed to 200 characters plus "...". Relevant-document listings carry their count. There is a health status, and both POST endpoints reject a blank question with HTTP 400.
- **Shared configuration** (`shared_config.py`): the constants `SIMILARITY_TOP_K = 5`, `RESPONSE_MODE = "compact"` and `MIN_LINE_LENGTH = 1`.

The modules follow the files:

- `wrappers.dfy`: Option and Result.
- `strings.dfy` (`PyStrings`): the Python string operations the core relies on, including the 29 code points of `str.isspace`, `strip`, `rstrip(chars)`, `split` and `join`.
- `pdf_text.dfy` (`PdfText`): page selection and text assembly, shared by both PDF readers.
- `documents.dfy` (`Documents`): the enumerate-and-filter loop that builds documents.
- `document_indexing.dfy`, `main_rag.dfy`, `retrieval.dfy` (the node, source and result records, and the `top_k` rule), `query_logging.dfy`, `local_query.dfy` and `query_service.dfy`.

Calls into libraries are parameters:

- the splitter and the node parser;
- the retriever, which returns at most `k` nodes;
- the query engine, keyed by its `similarity_top_k`;
- the reranker and the LLM completion;
- the index build of `main.py`, which embeds and stores the parsed nodes or raises.

A raised exception is a `Failure(message)`. Clock readings (elapsed time, timestamps, the log date) are also parameters.

Where the ingestion fails is modelled by `failAt`: the position of the first node whose embedding or storage raises.

One branch of the interactive loop can never be reached. After stripping, an input whose lower-cased form starts with "docs " always leaves a non-blank question, so the "please give a question" branch is dead (`LocalQuery.DocsQuestionNeverMissing`).

## Model

| member | source | states |
|---|---|---|
| PyStrings.RStripSpaceSpec | local_query.py:332 | `rstrip()` keeps a prefix, drops only whitespace, and leaves no trailing whitespace |
| PyStrings.LStripSpaceSpec | local_query.py:332 | `lstrip()` keeps a suffix, drops only whitespace, and leaves no leading whitespace |
| PyStrings.Strip | local_query.py:332 | stripping never lengthens the text |
| PyStrings.StripSpec | local_query.py:332 | the result is empty exactly when the input is all whitespace; otherwise it neither starts nor ends with whitespace |
| PyStrings.StripIdempotent | local_query.py:347 | stripping a stripped string changes nothing |
| PyStrings.RStripSet | document_indexing.py:107 | `rstrip(chars)` keeps a prefix, drops only characters of the set, and leaves none of them at the end |
| PyStrings.LStripChar | main.py:104 | `lstrip('-')` never lengthens the text |
| PyStrings.LStripCharSpec | main.py:104 | `lstrip('-')` keeps a suffix, drops only hyphens, and leaves no leading hyphen |
| PyStrings.RStripChar | main.py:104 | `rstrip('-')` never lengthens the text |
| PyStrings.RStripCharSpec | main.py:104 | `rstrip('-')` keeps a prefix, drops only hyphens, and leaves no trailing hyphen |
| PyStrings.StripChar | main.py:104 | `strip('-')` never lengthens the text |
| PyStrings.StripCharSpec | main.py:104 | `strip('-')` is the slice between the leading and the trailing run of hyphens: everything dropped is a hyphen, and the result neither starts nor ends with one |
| PyStrings.SplitOn | main.py:101 | `split('\n')` yields at least one part, and no part contains the separator |
| PyStrings.JoinSplit | main.py:101 | joining the parts of a split with the separator gives back the text |
| PyStrings.Lower | local_query.py:337 | lower-casing keeps the length |
| PyStrings.LowerKeepsSpace | local_query.py:345 | only a space lower-cases to a space |
| PdfText.SelectPages | document_indexing.py:98-100 | the page filter never yields more pages than there are |
| PdfText.OnlySelectedPagesContribute | document_indexing.py:98-100 | assembling with a page filter is assembling the selected pages without one |
| PdfText.NoFilterSelectsEveryPage | main.py:94-95 | without page numbers, every page is read |
| PdfText.UnselectedPageIgnored | main.py:92-98 | replacing a page the filter skips leaves the assembled text unchanged |
| PdfText.AppendPageText | document_indexing.py:102-108 | the element loop of one page appends exactly that page's text |
| PdfText.AssembleText | document_indexing.py:97-108 | the nested page/element loop computes the assembled text |
| Documents.DocumentsFromItems | document_indexing.py:144-154 | every document comes from a non-blank item and carries that item's position as its id; ids strictly increase; every non-blank item yields a document; source and id key are as given |
| Documents.DocumentsKeepItems | document_indexing.py:144-154 | every document is a non-blank item, kept verbatim, with its position as id and the loader's source and id key |
| Documents.DocumentIdsIncrease | document_indexing.py:144-154 | ids strictly increase along the documents |
| Documents.DocumentsCoverItems | document_indexing.py:144-154 | every non-blank item has its document |
| Documents.DocumentsFromNonBlank | main.py:152-161 | with no blank items, document k is item k with id k |
| Documents.BuildDocuments | document_indexing.py:172-182 | the loop builds exactly the filtered, numbered documents |
| DocumentIndexing.Dehyphenate | document_indexing.py:106-107 | a text without a trailing "-\n" is kept; otherwise its whole run of trailing '-' and '\n' characters is removed and at least two characters go |
| DocumentIndexing.NonBlankChunks | document_indexing.py:121 | no kept chunk is blank |
| DocumentIndexing.NonBlankChunksKeepsEveryNonBlank | document_indexing.py:121 | a chunk is kept exactly when it is one of the chunks and is not blank |
| DocumentIndexing.NonBlankChunksKeepsOrder | document_indexing.py:121 | filtering distributes over concatenation, so the chunks keep the splitter's order |
| DocumentIndexing.BlankTextSkipsSplitter | document_indexing.py:110-112 | a blank assembled text yields no chunks, whatever the splitter does |
| DocumentIndexing.ExtractTextFromPdf | document_indexing.py:82-128 | the chunks are the splitter's non-blank chunks of the stripped, dehyphenated text; a parse failure yields no chunks |
| DocumentIndexing.ProcessDocumentsFromPdf | document_indexing.py:130-157 | document k is chunk k with source the path, `paragraph_id` k and source type "pdf" |
| DocumentIndexing.ProcessDocumentsFromText | document_indexing.py:159-185 | the documents are the non-blank texts, with `text_id` their position and source type "text" |
| DocumentIndexing.BatchesPartition | document_indexing.py:222-225 | the batches concatenate back to the nodes, and there are ceil(n/10) of them |
| DocumentIndexing.BatchesAreSlices | document_indexing.py:224-225 | batch b is the non-empty slice starting at 10*b, at most 10 long |
| DocumentIndexing.StoredCount | document_indexing.py:222-234 | without a failure, every node is stored; a failure stores nothing or exactly the nodes before the failing one |
| DocumentIndexing.CountWhere | document_indexing.py:281-284 | the count of successes is at most the number of files |
| DocumentIndexing.CountWhereAll | document_indexing.py:281-284 | the success count equals the file count exactly when every file succeeds |
| DocumentIndexing.DirectoryPrefixStep | document_indexing.py:267-279 | one more file adds its success and its stored documents to the running totals |
| DocumentIndexing.AllSucceedIffEveryFile | document_indexing.py:281-284 | a directory ingest counts every file exactly when every file was ingested |
| DocumentIndexing.DataIngestion.constructor | document_indexing.py:21-39 | the collection starts as the given contents |
| DocumentIndexing.DataIngestion.ClearDatabase | document_indexing.py:56-80 | a reachable collection is emptied and True returned; otherwise False and nothing changes |
| DocumentIndexing.DataIngestion.IngestDocuments | document_indexing.py:187-241 | True exactly when no node raises, and then every batch is stored in order; the first batch is stored whole or not at all; a later failure leaves every earlier node stored; the progress counts whole batches |
| DocumentIndexing.DataIngestion.StoreBatch | document_indexing.py:225-234 | the first batch is stored whole or not at all; a later batch keeps the nodes before the one that raises; True exactly when no node of the batch raises |
| DocumentIndexing.DataIngestion.InsertNodes | document_indexing.py:230-233 | a later batch is inserted node by node: all of it when no node raises, else exactly the nodes before the one that raises |
| DocumentIndexing.DataIngestion.IngestFile | document_indexing.py:267-279 | a non-PDF file or one with no documents fails and stores nothing; otherwise its documents are ingested |
| DocumentIndexing.DataIngestion.IngestFromDirectory | document_indexing.py:243-284 | a missing directory or no files returns False with nothing stored; otherwise the files' documents are stored in order, and True means every file succeeded |
| RagMain.Fold | main.py:101-107 | no paragraph the loop appends is empty |
| RagMain.Paragraphs | main.py:101-109 | no paragraph is empty |
| RagMain.Segments | main.py:101-109 | the reference split of the long-line pieces at short lines has at least one segment |
| RagMain.FoldIsSegments | main.py:101-107 | the loop's paragraphs are the non-empty closed segments, and its buffer is the open one |
| RagMain.ParagraphsAreNonEmptySegments | main.py:101-109 | the paragraphs are exactly the non-empty segments |
| RagMain.FoldKeepsPieces | main.py:101-107 | paragraphs plus buffer hold every long line's piece, in order |
| RagMain.ParagraphsKeepEveryPiece | main.py:101-109 | no text of a long line is lost or reordered |
| RagMain.FoldHasNoNewline | main.py:101-107 | lines without a newline give paragraphs and a buffer without one |
| RagMain.ParagraphsHaveNoNewline | main.py:101-109 | lines without a newline give paragraphs without one |
| RagMain.BuildParagraphs | main.py:101-111 | the loop computes the paragraphs, none of them empty |
| RagMain.ExtractTextFromPdf | main.py:75-111 | the paragraphs of the assembled text are non-empty and contain no newline |
| RagMain.LoadDocumentsFromPdf | main.py:113-138 | the documents are the non-blank paragraphs, with `paragraph_id` their position and no source type |
| RagMain.LoadDocumentsFromText | main.py:140-163 | the documents are the non-blank texts, with `text_id` their position |
| RagMain.ResolveApiKey | main.py:30-34 | the key is the argument when one is given, else the environment's; it succeeds exactly when that value is non-empty, and otherwise fails with the missing-key error |
| RagMain.RagSystem.constructor | main.py:21-73 | the key is kept; Milvus stays on only if it was asked for and its start-up succeeded; there is no index and no engine |
| RagMain.RagSystem.New | main.py:21-73 | construction fails exactly when no usable key resolves |
| RagMain.RagSystem.BuildIndex | main.py:165-194 | on success the index holds the parsed nodes on Milvus when it is usable and in memory otherwise, and the engine is the index's engine at top 5, "compact"; an exception from parsing or indexing is returned and leaves the previous index and engine in place |
| RagMain.RagSystem.Query | main.py:196-211 | with no engine, the engine-required error; otherwise the engine's answer |
| RagMain.RagSystem.GetRelevantDocuments | main.py:213-233 | with no index, the index-required error; otherwise the retrieved texts in order, at most `top_k` of them |
| Retrieval.NodeTexts | local_query.py:149 | one text per node |
| Retrieval.CollectSources | local_query.py:295-316 | one source per node, in order, with score 0.0 and metadata `{}` when missing |
| Retrieval.TopKOrDefault | local_query.py:141 | `top_k or 5`: None and 0 give 5, every other value is kept, and the result is never 0 |
| Retrieval.EngineTopKIsTopKOrDefault | local_query.py:195-204 | building a fresh engine only when `top_k` is truthy and not 5 always serves the query at `top_k or 5` |
| Retrieval.RetrievalWithinTopK | query_service.py:185-192 | a retrieval returns at most `top_k or 5` nodes |
| QueryLogging.JoinPath | logging_config.py:38-41 | the path is the directory, then a '/' exactly when the directory is non-empty and does not already end with one, then the file name |
| QueryLogging.InstallHandler | logging_config.py:36 | a handler is added only to a logger without one |
| QueryLogging.InstallHandlerIdempotent | logging_config.py:26-51 | setting up again adds no second handler; a fresh logger ends with one handler |
| QueryLogging.Ranked | logging_config.py:72-79 | entry i has rank i+1 and copies source i's score, metadata and text |
| QueryLogging.RecordOf | logging_config.py:63-79 | the record keeps the question, answer and processing time, and ranks the sources |
| QueryLogging.RankSources | logging_config.py:72-79 | the enumerate loop computes the ranked sources |
| QueryLogging.QueryLogger.constructor | logging_config.py:11-51 | the day's file handler is installed unless the shared logger has one; no entry is written |
| QueryLogging.QueryLogger.LogQueryResult | logging_config.py:53-84 | exactly one record is appended, and it is the one returned |
| QueryLogging.QueryLogger.LogSourcesNote | logging_config.py:86-88 | exactly one note is appended |
| LocalQuery.TextsOf | local_query.py:184-185 | one text per node |
| LocalQuery.DataOf | local_query.py:182-189 | one value per node, reading its current score |
| LocalQuery.RetrieveCount | local_query.py:141 | the rerank path retrieves twice `top_k` nodes when `top_k` is set and non-zero, and twice the default of 5 otherwise |
| LocalQuery.FirstMatch | local_query.py:184-188 | the first node whose text equals the document, or none |
| LocalQuery.MatchIndices | local_query.py:182-189 | at most one node per rerank result, each a valid node |
| LocalQuery.RerankedData | local_query.py:182-189 | the rebuilt list is no longer than the rerank results |
| LocalQuery.ScoreAfterUnmatched | local_query.py:184-186 | a node no result lands on keeps its retrieval score |
| LocalQuery.ScoreAfterIsLastMatch | local_query.py:184-186 | a node holds the score of the last result that lands on it |
| LocalQuery.MatchStep | local_query.py:182-189 | one more result appends the node it lands on, if any, to the rebuilt list |
| LocalQuery.ScoreStep | local_query.py:184-186 | one more result overwrites the score of the node it lands on and of no other |
| LocalQuery.RerankedAreRetrieved | local_query.py:182-189 | every reranked node is a retrieved node, with its text and metadata |
| LocalQuery.EveryRetrievedResultKept | local_query.py:182-189 | when every result's document is a retrieved text, no result is dropped |
| LocalQuery.DuplicatesAlias | local_query.py:184-188 | results with duplicate text land on the same node and show the same final score |
| LocalQuery.FindNode | local_query.py:184-188 | the scan finds the first node whose text matches |
| LocalQuery.ApplyResult | local_query.py:184-188 | the first node with the result's text takes its score; no other node changes |
| LocalQuery.Reconstruct | local_query.py:182-189 | the rebuilt list is the matched nodes in result order, and every node's score is its last matching result's |
| LocalQuery.WrapNodes | local_query.py:146-149 | fresh, distinct node objects carry the retrieved values |
| LocalQuery.FailureResult | local_query.py:255-262 | the failure result keeps the question, prefixes the message, and has no sources and time 0.0 |
| LocalQuery.ClassifyIgnoresSurroundingSpace | local_query.py:332 | a command is classified after stripping, so surrounding whitespace does not matter |
| LocalQuery.DocsPrefixSpace | local_query.py:345 | an input whose lower-cased form starts with "docs " has a space at position 4 |
| LocalQuery.DocsRestNotBlank | local_query.py:345-347 | a stripped input starting with "docs " leaves a non-blank question |
| LocalQuery.DocsQuestionNeverMissing | local_query.py:345-351 | the missing-question branch is never taken |
| LocalQuery.Commands | local_query.py:330-355 | one command per input line |
| LocalQuery.SessionStep | local_query.py:330-355 | a command other than quit is processed and the session goes on |
| LocalQuery.SessionWithoutQuit | local_query.py:330-355 | without a quit command, every input is dispatched in order |
| LocalQuery.SessionStopsAtFirstQuit | local_query.py:337-339 | the session dispatches the inputs up to and including the first quit, and nothing after it |
| LocalQuery.LocalQuerySystem.constructor | local_query.py:21-68 | the logger is the shared "LocalQuerySystem" logger with the "logs" handler and no console |
| LocalQuery.LocalQuerySystem.AnswerShape | local_query.py:116-262 | an engine failure gives the failure result; otherwise the answer is the engine's, the processing time is kept, and the sources are one per source node when shown and none otherwise |
| LocalQuery.LocalQuerySystem.PlainQueryUsesTopKOrDefault | local_query.py:193-204 | without rerank, the query is answered by the engine at `top_k or 5` |
| LocalQuery.LocalQuerySystem.RerankSourcesAreRetrieved | local_query.py:136-191 | a successful rerank answer's sources are retrieved nodes, no more of them than there are rerank results |
| LocalQuery.LocalQuerySystem.RerankQuery | local_query.py:136-191 | the rerank path's response, with retrieval, rerank or completion failures propagated |
| LocalQuery.LocalQuerySystem.Respond | local_query.py:133-204 | the response comes from the rerank path, a fresh engine at a custom `top_k`, or the prebuilt engine, as specified |
| LocalQuery.LocalQuerySystem.Query | local_query.py:116-262 | the result is the specified answer; a success logs the sources note (when shown) and then the record; a failure logs nothing |
| LocalQuery.LocalQuerySystem.GetRelevantDocuments | local_query.py:264-320 | the retrieved sources, at most `top_k or 5` of them; a failure gives an empty list |
| LocalQuery.LocalQuerySystem.BatchQuery | local_query.py:371-398 | one result per question, in order, each a query without sources; the log holds each query's entries in turn |
| LocalQuery.LocalQuerySystem.SessionAdvance | local_query.py:330-355 | quit ends the session with nothing logged; any other command logs its entries before the rest of the session |
| LocalQuery.LocalQuerySystem.Dispatch | local_query.py:341-355 | a question logs its query's entries; `docs`, help and blank lines log nothing |
| LocalQuery.LocalQuerySystem.InteractiveMode | local_query.py:322-361 | the commands dispatched are the session up to the first quit; the log holds exactly the entries of the questions asked |
| QueryService.Preview | query_service.py:151 | a text of at most 200 characters is kept; a longer one becomes its first 200 characters plus "..." |
| QueryService.PreviewIdempotent | query_service.py:151 | previewing twice changes nothing, and a preview is at most 203 characters |
| QueryService.ServerError | query_service.py:166-167 | an exception becomes HTTP 500 with the prefixed message |
| QueryService.QueryService.Query | query_service.py:116-167 | the answer from the engine at `top_k or 5`, with one previewed source per node; an exception gives HTTP 500 |
| QueryService.QueryService.GetRelevantDocuments | query_service.py:169-211 | the retrieved documents with full text, `total_count` their number, at most `top_k or 5`; a failure gives HTTP 500 with the retrieval prefix |
| QueryService.QueryService.HealthCheck | query_service.py:213-222 | "healthy" exactly when the vector store and the index are both set, and "unhealthy" otherwise |
| QueryService.QueryEndpoint | query_service.py:257-264 | a blank question gives HTTP 400 without calling the service; otherwise the service's outcome |
| QueryService.RelevantDocsEndpoint | query_service.py:267-274 | a blank question gives HTTP 400 without calling the service; otherwise the service's outcome |

## Left out

- PDF parsing (pdfminer's `extract_pages`, layout analysis and `get_text`) is an input. The pages arrive already parsed, as a `Result`. In `main.py` a parse error propagates to the caller, so those methods take pages that parsed.
- The semantic splitter, the 512/50 sentence splitter and the node parser are opaque parameters. Their internals (embeddings, breakpoints, chunk sizes) are not modelled.
- Embeddings, the LLM, the Milvus client and the reranker's internals are opaque functions. The prompt template's text is not modelled: the completion receives the question and the reranked context.
- Milvus start-up (`_init_milvus`, `_init_system`, `_init_services`) is a success flag. Process exit on a start-up failure, and `Config.validate`, are not modelled: each system is modelled after a successful start-up.
- Scores are `real` values that are copied, never computed on. Float formatting (`{score:.4f}`) and the text of printed or logged messages are not modelled. The sources note is an entry holding the sources, and the record's JSON rendering is not modelled.
- Timestamps, dates and elapsed times are parameters, not clock readings.
- `os.makedirs`, log levels, console handlers (the `enable_console` flag is kept but unused), `log_error` and `log_warning` are not modelled.
- The `main` functions and argparse, `_show_help`, the FastAPI application (CORS, uvicorn, pydantic), the `/` and `/stats` endpoints, and the JSON file written by `batch_query` are not modelled.
- InteractiveMode: the inputs are a finite sequence. The model does not capture KeyboardInterrupt, nor the endless retry after an end of input (EOFError is caught by `except Exception`).
- InteractiveMode: returns the commands it dispatched rather than the output of each `docs` retrieval. Retrievals add no log entries, and asked questions add theirs.
- RagMain.RagSystem.BuildIndex: an exception while indexing leaves the previous index and engine in place; what Milvus may already have stored before the exception is not modelled.
- PyStrings.Lower: lower-cases ASCII letters only. No other character lower-cases into "quit", "exit", "q", "help" or "docs ", so the classification is unaffected.
- DocumentIndexing.DataIngestion.IngestDocuments: a failure is given as the position of the first node that raises. Partial storage of a failing first batch is not modelled (the index build is taken as all-or-nothing), nor is a failure while converting documents to nodes.
