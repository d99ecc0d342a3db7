/**
 * What the writer promises, stated over the effect functions that its
 * methods are proved to implement.
 */
module WriterProperties {
  import opened Wrappers
  import opened Paths
  import opened Slack
  import opened Environment
  import opened SqlLogger

  // ---------------------------------------------------------------------------
  // Gates
  // ---------------------------------------------------------------------------

  /**
   * The slow-query gate: the threshold is inclusive, each of the three
   * conditions alone suppresses the alert, and a slower query of the same
   * text is alerted on as well.
   */
  lemma SlowQueryGate(c: Config, m: Matcher, q: SqlQuery)
    ensures c.logSlowQueries && q.time == c.slowLogTime && m(c.slowQueriesPattern, q.raw)
            ==> ShouldLogSlowQuery(c, m, q)
    ensures !ShouldLogSlowQuery(c.(logSlowQueries := false), m, q)
    ensures q.time < c.slowLogTime ==> !ShouldLogSlowQuery(c, m, q)
    ensures !m(c.slowQueriesPattern, q.raw) ==> !ShouldLogSlowQuery(c, m, q)
    ensures forall t :: t >= q.time && ShouldLogSlowQuery(c, m, q) ==> ShouldLogSlowQuery(c, m, q.(time := t))
  {
  }

  /** The all-queries gate needs both the flag and a match, and ignores the elapsed time. */
  lemma QueryGate(c: Config, m: Matcher, q: SqlQuery)
    ensures ShouldLogQuery(c, m, q) <==> c.logAllQueries && m(c.allQueriesPattern, q.raw)
    ensures forall t :: ShouldLogQuery(c, m, q.(time := t)) == ShouldLogQuery(c, m, q)
  {
  }

  /** Overriding happens at most for the first query of a run, and then exactly when configured. */
  lemma OverrideGate(c: Config, q: SqlQuery)
    ensures ShouldOverrideFile(c, q) ==> q.number == 1
    ensures q.number == 1 ==> (ShouldOverrideFile(c, q) <==> c.overrideFile)
  {
  }

  // ---------------------------------------------------------------------------
  // Directory creation
  // ---------------------------------------------------------------------------

  /**
   * Only query number 1 may create the directory, and only when nothing
   * exists at its path; afterwards the directory path exists. Files and
   * notifications never change.
   */
  lemma CreateDirectoryRule(c: Config, s: WorldState, n: int)
    ensures var s' := CreateDirectoryEffect(c, s, n);
            && s'.files == s.files && s'.sent == s.sent
            && (n != 1 || Exists(s, Directory(c)) ==> s' == s)
            && (n == 1 && !Exists(s, Directory(c)) ==> s'.dirs == s.dirs + {Directory(c)} && Directory(c) !in s.dirs)
            && (n == 1 ==> Exists(s', Directory(c)))
  {
  }

  /** A second directory check for the same query number changes nothing. */
  lemma CreateDirectoryIdempotent(c: Config, s: WorldState, n: int)
    ensures CreateDirectoryEffect(c, CreateDirectoryEffect(c, s, n), n) == CreateDirectoryEffect(c, s, n)
  {
  }

  /**
   * Trailing separators in the configured directory do not change the log
   * path: `/var/log/sql`, `/var/log/sql/` and `/var/log/sql\\//` all give the
   * same file.
   */
  lemma LogPathIgnoresTrailingSeparators(c: Config, tail: string, fileName: string)
    requires forall i :: 0 <= i < |tail| ==> IsSeparator(tail[i])
    ensures LogPath(c.(logDirectory := c.logDirectory + tail), fileName) == LogPath(c, fileName)
  {
    TrimAppendsSeparators(c.logDirectory, tail);
  }

  // ---------------------------------------------------------------------------
  // Writing a line
  // ---------------------------------------------------------------------------

  /**
   * `saveLine` touches one file only, at the directory, the separator and
   * the file name: with override its contents become the line, otherwise
   * the line is appended to what was there.
   */
  lemma SaveLineRule(c: Config, s: WorldState, line: string, fileName: string, override: bool)
    ensures var s', path := SaveLineEffect(c, s, line, fileName, override), LogPath(c, fileName);
            && path == Directory(c) + "/" + fileName
            && s'.dirs == s.dirs && s'.sent == s.sent
            && s'.files.Keys == s.files.Keys + {path}
            && (forall p :: p != path ==> ContentsOf(s', p) == ContentsOf(s, p))
            && ContentsOf(s', path) == (if override then line else ContentsOf(s, path) + line)
  {
  }

  /** Lines in order, concatenated. */
  function Concat(lines: seq<string>): string {
    if lines == [] then "" else lines[0] + Concat(lines[1..])
  }

  /** Appending each line in turn with `saveLine` and no override. */
  function AppendLines(c: Config, s: WorldState, lines: seq<string>, fileName: string): WorldState
    decreases |lines|
  {
    if lines == [] then s
    else AppendLines(c, SaveLineEffect(c, s, lines[0], fileName, false), lines[1..], fileName)
  }

  /** Successive appends leave the file as its old contents followed by every line, in order. */
  lemma {:induction false} AppendLinesContents(c: Config, s: WorldState, lines: seq<string>, fileName: string)
    ensures ContentsOf(AppendLines(c, s, lines, fileName), LogPath(c, fileName))
            == ContentsOf(s, LogPath(c, fileName)) + Concat(lines)
    decreases |lines|
  {
    var path := LogPath(c, fileName);
    if lines != [] {
      var s1 := SaveLineEffect(c, s, lines[0], fileName, false);
      SaveLineRule(c, s, lines[0], fileName, false);
      AppendLinesContents(c, s1, lines[1..], fileName);
      assert ContentsOf(s, path) + lines[0] + Concat(lines[1..]) == ContentsOf(s, path) + Concat(lines);
    } else {
      assert ContentsOf(s, path) + Concat(lines) == ContentsOf(s, path);
    }
  }

  /**
   * A file overridden once and appended to afterwards holds exactly the
   * lines written since the override, whatever it held before.
   */
  lemma OverrideThenAppend(c: Config, s: WorldState, first: string, rest: seq<string>, fileName: string)
    ensures ContentsOf(AppendLines(c, SaveLineEffect(c, s, first, fileName, true), rest, fileName), LogPath(c, fileName))
            == Concat([first] + rest)
  {
    var s1 := SaveLineEffect(c, s, first, fileName, true);
    SaveLineRule(c, s, first, fileName, true);
    AppendLinesContents(c, s1, rest, fileName);
    assert ([first] + rest)[1..] == rest;
  }

  // ---------------------------------------------------------------------------
  // Saving a query
  // ---------------------------------------------------------------------------

  /** `save` never writes a file: every file keeps its contents and no file appears. */
  lemma SaveNeverWrites(c: Config, m: Matcher, f: Formatter, s: WorldState, route: string,
                        q: SqlQuery, bt: Option<string>)
    ensures SaveEffect(c, m, f, s, route, q, bt).files == s.files
  {
  }

  /** `save` changes directories exactly as the directory check does, and only for query 1. */
  lemma SaveDirectories(c: Config, m: Matcher, f: Formatter, s: WorldState, route: string,
                        q: SqlQuery, bt: Option<string>)
    ensures var s' := SaveEffect(c, m, f, s, route, q, bt);
            && s'.dirs == CreateDirectoryEffect(c, s, q.number).dirs
            && (q.number != 1 ==> s'.dirs == s.dirs)
            && (q.number == 1 ==> Exists(s', Directory(c)))
  {
  }

  /**
   * `save` keeps every earlier notification and appends at most one: the
   * slow-query message for the formatter's context, exactly when the query
   * passes the slow gate and a routing target is configured.
   */
  lemma SaveNotifies(c: Config, m: Matcher, f: Formatter, s: WorldState, route: string,
                     q: SqlQuery, bt: Option<string>)
    ensures var s' := SaveEffect(c, m, f, s, route, q, bt);
            && |s.sent| <= |s'.sent| <= |s.sent| + 1
            && s'.sent[..|s.sent|] == s.sent
            && (|s'.sent| == |s.sent| + 1 <==> ShouldLogSlowQuery(c, m, q) && !IsEmptyRoute(route))
            && (|s'.sent| == |s.sent| + 1 ==> s'.sent[|s.sent|] == SlowQueryNotification(f.getSlackRecord(q), bt))
  {
  }

  /**
   * The first query of a run, slow and matching, with a missing log
   * directory and a configured route: the trimmed directory is created and
   * one slow-query message is sent for the formatter's context.
   */
  lemma FirstSlowQueryScenario(m: Matcher, f: Formatter, s: WorldState, route: string, request: string, bt: Option<string>)
    requires m("/.*/", "SELECT 1")
    requires f.getSlackRecord(SqlQuery(1, "SELECT 1", 5000)) == SlackRecord("app", "5000", "SELECT 1", request)
    requires !Exists(s, "/var/log/sql") && !IsEmptyRoute(route)
    ensures var s' := SaveEffect(Config("/var/log/sql/", false, "", true, "/.*/", 1000, false),
                                 m, f, s, route, SqlQuery(1, "SELECT 1", 5000), bt);
            && s'.dirs == s.dirs + {"/var/log/sql"}
            && s'.sent == s.sent + [SlowQueryNotification(SlackRecord("app", "5000", "SELECT 1", request), bt)]
  {
    assert Directory(Config("/var/log/sql/", false, "", true, "/.*/", 1000, false)) == "/var/log/sql" by {
      TrimIsLongestClean("/var/log/sql/", "/var/log/sql");
    }
  }

  /** The message of that scenario names the database and shows the time before the SQL. */
  lemma FirstSlowQueryPayload(request: string, bt: Option<string>)
    ensures "*database* app\n*query* (5000)\nSELECT 1\n"
            <= SlowQueryNotification(SlackRecord("app", "5000", "SELECT 1", request), bt).fields[0]
  {
    var ctx := SlackRecord("app", "5000", "SELECT 1", request);
    ContentFrame(ctx, bt);
    var head := "*database* " + ctx.database + "\n*query* (" + ctx.time + ")\n" + ctx.query + "\n";
    assert head <= SlowQueryNotification(ctx, bt).fields[0];
    assert head == "*database* app\n*query* (5000)\nSELECT 1\n";
  }

  /** The same query under the threshold, or with slow logging off, sends nothing. */
  lemma QuietScenarios(m: Matcher, f: Formatter, s: WorldState, route: string, bt: Option<string>)
    ensures SaveEffect(Config("/var/log/sql", false, "", true, "/.*/", 1000, false),
                       m, f, s, route, SqlQuery(1, "SELECT 1", 500), bt).sent == s.sent
    ensures forall t :: SaveEffect(Config("/var/log/sql", false, "", false, "/.*/", 1000, false),
                                   m, f, s, route, SqlQuery(1, "SELECT 1", t), bt).sent == s.sent
  {
  }
}
