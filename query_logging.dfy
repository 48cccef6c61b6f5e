/**
 * The query log: a named logger that gets one file handler at most, and the
 * record written for every answered query, whose sources are ranked from 1.
 */
module QueryLogging {
  import opened PyStrings
  import opened Retrieval

  const DEFAULT_LOGGER_NAME: string := "LocalQuerySystem"
  const DEFAULT_LOG_DIR: string := "logs"

  /** One ranked source of a log record. */
  datatype LogSource = LogSource(rank: nat, similarityScore: real, metadata: Metadata, fullContent: string)

  /** `log_data`: what `log_query_result` writes and returns. */
  datatype LogRecord = LogRecord(timestamp: string, question: string, answer: string, processingTime: real, sources: seq<LogSource>)

  /**
   * A message the logger emitted: the sources note a query logs before its
   * record (its text rendering is not modelled), or a query record.
   */
  datatype LogEntry = SourcesNote(sources: seq<SourceInfo>) | QueryRecord(record: LogRecord)

  /** A file handler writing to `path`. */
  datatype FileHandler = FileHandler(path: string)

  /**
   * The logging framework's logger of one name. `getLogger(name)` hands back
   * the same object for the same name, so every QueryLogger built with that
   * name shares it.
   */
  class Logger {
    const name: string
    var handlers: seq<FileHandler>
    var entries: seq<LogEntry>

    constructor (name: string)
      ensures this.name == name && handlers == [] && entries == []
    {
      this.name := name;
      handlers := [];
      entries := [];
    }
  }

  /** `os.path.join(directory, file)` for a relative file name. */
  function JoinPath(directory: string, file: string): (r: string)
    ensures StartsWith(r, directory) && EndsWith(r, file)
    ensures r == directory + file || r == directory + "/" + file
    ensures EndsWith(r[..|r| - |file|], "/") || r[..|r| - |file|] == []
    ensures (directory == [] || EndsWith(directory, "/")) <==> r == directory + file
  {
    if directory == [] || EndsWith(directory, "/") then directory + file else directory + "/" + file
  }

  /** The day's log file: `<log_dir>/query_log_<YYYYMMDD>.log`. */
  function LogFilePath(logDir: string, date: string): string {
    JoinPath(logDir, "query_log_" + date + ".log")
  }

  /** The guard in `_setup_logging`: a handler is added only to a logger that has none. */
  function InstallHandler(handlers: seq<FileHandler>, handler: FileHandler): (r: seq<FileHandler>)
    ensures |r| >= 1
    ensures handlers == [] ==> r == [handler]
    ensures handlers != [] ==> r == handlers
  {
    if handlers == [] then [handler] else handlers
  }

  /** Setting up twice (on another day, say) changes nothing: a logger built fresh ends with exactly one handler. */
  lemma InstallHandlerIdempotent(handlers: seq<FileHandler>, first: FileHandler, second: FileHandler)
    ensures InstallHandler(InstallHandler(handlers, first), second) == InstallHandler(handlers, first)
    ensures |InstallHandler(InstallHandler([], first), second)| == 1
  {
  }

  /**
   * The enumerate loop's result: entry i has rank i + 1 and copies source i's
   * score, metadata and text unchanged.
   */
  function Ranked(sources: seq<SourceInfo>): (r: seq<LogSource>)
    ensures |r| == |sources|
    ensures forall i :: 0 <= i < |r| ==>
      && r[i].rank == i + 1
      && r[i].similarityScore == sources[i].score
      && r[i].metadata == sources[i].metadata
      && r[i].fullContent == sources[i].text
    decreases |sources|
  {
    if |sources| == 0 then []
    else
      var last := sources[|sources| - 1];
      Ranked(sources[..|sources| - 1]) + [LogSource(|sources|, last.score, last.metadata, last.text)]
  }

  /** The record for a result: its question, answer and processing time unchanged, its sources ranked. */
  function RecordOf(result: QueryResult, timestamp: string): (r: LogRecord)
    ensures r.timestamp == timestamp
    ensures r.question == result.question && r.answer == result.answer
    ensures r.processingTime == result.processingTime
    ensures r.sources == Ranked(result.sources)
  {
    LogRecord(timestamp, result.question, result.answer, result.processingTime, Ranked(result.sources))
  }

  /** The ranking loop of `log_query_result`. */
  method RankSources(sources: seq<SourceInfo>) returns (ranked: seq<LogSource>)
    ensures ranked == Ranked(sources)
    ensures |ranked| == |sources|
    ensures forall i :: 0 <= i < |ranked| ==> ranked[i].rank == i + 1
  {
    ranked := [];
    var i := 0;
    while i < |sources|
      invariant 0 <= i <= |sources|
      invariant ranked == Ranked(sources[..i])
    {
      assert sources[..i + 1][..i] == sources[..i];
      var source := sources[i];
      ranked := ranked + [LogSource(i + 1, source.score, source.metadata, source.text)];
      i := i + 1;
    }
    assert sources[..i] == sources;
  }

  class QueryLogger {
    const loggerName: string
    const logDir: string
    const enableConsole: bool
    const logger: Logger

    /**
     * `QueryLogger(name, log_dir, enable_console)` over the shared logger of
     * that name, on the given date: adds the day's file handler unless the
     * logger already has one.
     */
    constructor (logger: Logger, logDir: string, enableConsole: bool, date: string)
      modifies logger
      ensures this.logger == logger && loggerName == logger.name
      ensures this.logDir == logDir && this.enableConsole == enableConsole
      ensures logger.handlers == InstallHandler(old(logger.handlers), FileHandler(LogFilePath(logDir, date)))
      ensures logger.entries == old(logger.entries)
    {
      this.logger := logger;
      loggerName := logger.name;
      this.logDir := logDir;
      this.enableConsole := enableConsole;
      if logger.handlers == [] {
        logger.handlers := logger.handlers + [FileHandler(LogFilePath(logDir, date))];
      }
    }

    /** `log_query_result`: builds the record, logs it once, and returns the record it logged. */
    method LogQueryResult(result: QueryResult, timestamp: string) returns (record: LogRecord)
      modifies logger
      ensures record == RecordOf(result, timestamp)
      ensures logger.entries == old(logger.entries) + [QueryRecord(record)]
      ensures logger.handlers == old(logger.handlers)
    {
      var sources := RankSources(result.sources);
      record := LogRecord(timestamp, result.question, result.answer, result.processingTime, sources);
      logger.entries := logger.entries + [QueryRecord(record)];
    }

    /** `log_info` with the sources note of a query. */
    method LogSourcesNote(sources: seq<SourceInfo>)
      modifies logger
      ensures logger.entries == old(logger.entries) + [SourcesNote(sources)]
      ensures logger.handlers == old(logger.handlers)
    {
      logger.entries := logger.entries + [SourcesNote(sources)];
    }
  }
}
