/**
 * The query writer of the SQL logger: its configuration, the decisions it
 * takes for each executed query, what each step does to the world, and the
 * `Writer` class whose methods carry those steps out.
 */
module SqlLogger {
  import opened Wrappers
  import opened Paths
  import opened Slack
  import opened Environment

  /** The settings the writer reads from its `Config` collaborator. */
  datatype Config = Config(
    logDirectory: string,
    logAllQueries: bool,
    allQueriesPattern: string,
    logSlowQueries: bool,
    slowQueriesPattern: string,
    slowLogTime: int,
    overrideFile: bool)

  /** The parts of an executed query the writer itself inspects. */
  datatype SqlQuery = SqlQuery(number: int, raw: string, time: int)

  /** `preg_match($pattern, $subject)` taken as true or false. */
  type Matcher = (string, string) -> bool

  /** The `Formatter` collaborator: the log line and the chat context for a query. */
  datatype Formatter = Formatter(getLine: SqlQuery -> string, getSlackRecord: SqlQuery -> SlackRecord)

  // ---------------------------------------------------------------------------
  // Decisions (pure)
  // ---------------------------------------------------------------------------

  /** `directory()`: the configured log directory without trailing separators. */
  function Directory(c: Config): (d: string)
    ensures HasNoTrailingSeparator(d)
    ensures d <= c.logDirectory
    ensures forall i :: |d| <= i < |c.logDirectory| ==> IsSeparator(c.logDirectory[i])
  {
    TrimTrailingSeparators(c.logDirectory)
  }

  /** `shouldLogQuery`: logging of all queries is on and the raw SQL matches its pattern. */
  predicate ShouldLogQuery(c: Config, m: Matcher, q: SqlQuery) {
    c.logAllQueries && m(c.allQueriesPattern, q.raw)
  }

  /** `shouldLogSlowQuery`: slow logging is on, the query took at least the threshold, and it matches. */
  predicate ShouldLogSlowQuery(c: Config, m: Matcher, q: SqlQuery) {
    c.logSlowQueries && q.time >= c.slowLogTime && m(c.slowQueriesPattern, q.raw)
  }

  /** `shouldOverrideFile`: the first query of the run, with file overriding configured. */
  predicate ShouldOverrideFile(c: Config, q: SqlQuery) {
    q.number == 1 && c.overrideFile
  }

  /**
   * The file `saveLine` writes to. Because the directory is trimmed first,
   * it adds no separator of its own before the joint; when the file name
   * does not start with one either, the joint holds exactly one separator.
   */
  function LogPath(c: Config, fileName: string): (path: string)
    ensures |Directory(c)| < |path| && path[|Directory(c)|] == DirectorySeparator
    ensures Directory(c) == [] || !IsSeparator(path[|Directory(c)| - 1])
    ensures fileName != [] && !IsSeparator(fileName[0])
            ==> |Directory(c)| + 1 < |path| && !IsSeparator(path[|Directory(c)| + 1])
  {
    Directory(c) + [DirectorySeparator] + fileName
  }

  // ---------------------------------------------------------------------------
  // Effects of each step on the world
  // ---------------------------------------------------------------------------

  /** `createDirectoryIfNotExists`: only the first query creates a missing directory. */
  function CreateDirectoryEffect(c: Config, s: WorldState, queryNumber: int): WorldState {
    if queryNumber == 1 && !Exists(s, Directory(c)) then s.(dirs := s.dirs + {Directory(c)}) else s
  }

  /** `saveLine`: replace or extend the one log file. */
  function SaveLineEffect(c: Config, s: WorldState, line: string, fileName: string, override: bool): WorldState {
    var path := LogPath(c, fileName);
    s.(files := s.files[path := if override then line else ContentsOf(s, path) + line])
  }

  /** `toSlack`: dispatch the notification only when a routing target is configured. */
  function ToSlackEffect(s: WorldState, route: string, ctx: SlackRecord, bt: Option<string>): WorldState {
    if IsEmptyRoute(route) then s else s.(sent := s.sent + [SlowQueryNotification(ctx, bt)])
  }

  /** `save`: the directory check, then the alert for a slow query. */
  function SaveEffect(c: Config, m: Matcher, f: Formatter, s: WorldState, route: string,
                      q: SqlQuery, bt: Option<string>): WorldState {
    var s1 := CreateDirectoryEffect(c, s, q.number);
    if ShouldLogSlowQuery(c, m, q) then ToSlackEffect(s1, route, f.getSlackRecord(q), bt) else s1
  }

  // ---------------------------------------------------------------------------
  // The writer
  // ---------------------------------------------------------------------------

  class Writer {
    const formatter: Formatter
    const config: Config
    /** The regular-expression engine behind `preg_match`. */
    const pregMatch: Matcher

    constructor (formatter: Formatter, config: Config, pregMatch: Matcher)
      ensures this.formatter == formatter && this.config == config && this.pregMatch == pregMatch
    {
      this.formatter := formatter;
      this.config := config;
      this.pregMatch := pregMatch;
    }

    /**
     * Handle one executed query. `bt` is what the backtrace utility returns,
     * or None when it is unavailable.
     */
    method Save(query: SqlQuery, bt: Option<string>, w: World)
      modifies w
      ensures w.State() == SaveEffect(config, pregMatch, formatter, old(w.State()), w.slackRoute, query, bt)
    {
      CreateDirectoryIfNotExists(query.number, w);

      var line := formatter.getLine(query);
      var context := formatter.getSlackRecord(query);

      if ShouldLogSlowQuery(config, pregMatch, query) {
        ToSlack(context, bt, w);
      }
    }

    method CreateDirectoryIfNotExists(queryNumber: int, w: World)
      modifies w
      ensures w.State() == CreateDirectoryEffect(config, old(w.State()), queryNumber)
    {
      if queryNumber == 1 {
        var directory := Directory(config);
        var present := w.FileExists(directory);
        if !present {
          w.MakeDirectory(directory);
        }
      }
    }

    method SaveLine(line: string, fileName: string, override: bool, w: World)
      modifies w
      ensures w.State() == SaveLineEffect(config, old(w.State()), line, fileName, override)
    {
      w.PutContents(Directory(config) + [DirectorySeparator] + fileName, line, !override);
    }

    method ToSlack(context: SlackRecord, bt: Option<string>, w: World)
      modifies w
      ensures w.State() == ToSlackEffect(old(w.State()), w.slackRoute, context, bt)
    {
      var backTrace := BackTracePlaceholder;
      if bt.Some? {
        backTrace := bt.value;
      }

      var content := "*database* " + context.database + "\n";
      content := content + "*query* (" + context.time + ")\n" + context.query + "\n";
      content := content + context.request + "\n";
      content := content + "*backTrace*\n" + backTrace + "\n";
      assert content == Content(context, BackTraceText(bt));

      var notification := Notification(Error, false, SlowQuerySlackTitle, [content]);

      if !IsEmptyRoute(w.slackRoute) {
        w.Notify(notification);
      }
    }
  }
}
