# Query writer of laravel-sql-logger, modelled in Dafny

This project models `Writer`, the class of the Laravel SQL logger that handles each executed
database query. For every query record it:

- makes sure the log directory exists (only for the first query of a run);
- renders the log line and the chat context through its formatter;
- if the query counts as slow, sends a slow-query alert to the Slack channel, provided a
  routing target is configured.

The class also holds helpers that this version of `save` never calls: the all-queries gate,
the override gate and `saveLine`, which writes to the log file. They are modelled as they
are. The model keeps the source's behaviour: `save` writes no log file at all.

Structure:

- `paths.dfy` (module `Paths`): the fixed directory separator and `rtrim($dir, '\\/')`.
- `text.dfy` (module `Text`): lines ended by a newline, joining and splitting, with their
  round trip.
- `slack.dfy` (module `Slack`): the context record, the notification value, the two literal
  constants (the title `スロークエリー` and the backtrace placeholder `未実装`), and the exact
  message layout.
- `environment.dfy` (module `Environment`): the world the writer acts on. Its abstract state
  `WorldState` holds the existing directories, the file contents by path and the sequence of
  dispatched notifications. The `World` class holds the same data as fields, with one method
  for each of the three PHP built-ins the writer calls (`file_exists`, `mkdir`,
  `file_put_contents`) and one for the notification's `notify` method.
- `sqllogger.dfy` (module `SqlLogger`): the configuration, the query record, the pure
  decisions (`Directory`, `ShouldLogQuery`, `ShouldLogSlowQuery`, `ShouldOverrideFile`) and one
  effect function per step. It also holds the `Writer` class. Each of its methods is proved to
  move the world exactly as the matching effect function says.
- `properties.dfy` (module `WriterProperties`): lemmas over the effect functions. They cover
  the gates, the directory rule, where and how `saveLine` writes, and the fact that `save`
  never writes a file and sends at most one alert. They also include the worked scenarios of
  a slow first query and of quiet queries.

Collaborators outside this file are inputs to the model:

- `preg_match` is a `Matcher` function given to the writer.
- `Formatter` is a pair of functions: one for the line, one for the chat context.
- The backtrace utility is an `Option<string>`: `None` when it is unavailable.
- The value of `routeNotificationForSlack()` is a constant string of the world.

Behaviours of the code worth noting:

- The directory check uses `file_exists`, which also holds for a regular file. A file at the
  directory's path therefore prevents `mkdir`.
- The routing test is PHP `empty()` on a string, so both `""` and `"0"` count as "no route".
- `save` renders the log line and then discards it.
- A `logDirectory` made only of separators, such as `/`, trims to the empty string. On
  query 1 the code then calls `file_exists("")`, which is false, and `mkdir("")`, which
  fails. The model, where `mkdir` always succeeds, adds `""` to the directories instead.
- The availability probe passes `method_exists` the plain string `'Util'`. The
  `use App\Libs\Util` import does not apply to strings, so the probe looks for a global
  `Util` class, while the call that follows goes to `App\Libs\Util`. The backtrace input
  is an `Option<string>`, which covers both outcomes.

## Model

| member | source | states |
|---|---|---|
| `Paths.TrimTrailingSeparators` | src/Writer.php:78-81 | the trimmed directory is a prefix of the configured one, does not end in `/` or `\`, and everything cut off is a separator |
| `Paths.TrimIsLongestClean` | src/Writer.php:78-81 | any prefix that has no trailing separator, and is followed only by separators, is exactly the trimmed directory (the longest such prefix) |
| `Paths.TrimIdempotent` | src/Writer.php:78-81 | trimming a second time changes nothing |
| `Paths.TrimAppendsSeparators` | src/Writer.php:78-81 | appending any run of `/` and `\` characters to the configured directory leaves `directory()` unchanged |
| `SqlLogger.Directory` | src/Writer.php:78-81 | `directory()` has no trailing separator, is a prefix of `logDirectory`, and only separators follow it there |
| `SqlLogger.ShouldLogQuery` | src/Writer.php:90-94 | the all-queries gate: `logAllQueries` is set and the raw SQL matches `allQueriesPattern` (its consequences are in `WriterProperties.QueryGate`) |
| `SqlLogger.ShouldLogSlowQuery` | src/Writer.php:103-107 | the slow gate: `logSlowQueries` is set, the elapsed time is at least `slowLogTime`, and the raw SQL matches `slowQueriesPattern` (its consequences are in `WriterProperties.SlowQueryGate`) |
| `SqlLogger.ShouldOverrideFile` | src/Writer.php:129-132 | the override gate: query number 1 and `overrideFile` set (its consequences are in `WriterProperties.OverrideGate`) |
| `SqlLogger.LogPath` | src/Writer.php:118 | the log path has `/` right after `directory()`, and `directory()` adds no separator of its own before it; when the file name does not start with `/` or `\`, the joint holds exactly one separator |
| `WriterProperties.LogPathIgnoresTrailingSeparators` | src/Writer.php:118 | adding any run of `/` and `\` to the end of `logDirectory` does not change the file `saveLine` writes to |
| `WriterProperties.QueryGate` | src/Writer.php:90-94 | `shouldLogQuery` holds iff `logAllQueries` is set and the raw SQL matches `allQueriesPattern`; elapsed time plays no part |
| `WriterProperties.SlowQueryGate` | src/Writer.php:103-107 | the slow threshold is inclusive; turning slow logging off, a time below the threshold, or a pattern mismatch each suppresses the alert; a slower run of the same query still alerts |
| `WriterProperties.OverrideGate` | src/Writer.php:129-132 | `shouldOverrideFile` can hold only for query number 1, and for that query it holds iff `overrideFile` is set |
| `Environment.World.FileExists` | src/Writer.php:68 | `file_exists` is true for an existing directory or file at the path |
| `Environment.World.MakeDirectory` | src/Writer.php:69 | `mkdir` adds the path to the directories; files and notifications are unchanged |
| `Environment.World.PutContents` | src/Writer.php:118-119 | `file_put_contents` replaces the file's contents, or with `FILE_APPEND` extends them (a missing file starts empty); nothing else changes |
| `Environment.World.Notify` | src/Writer.php:155 | dispatch appends the notification to the sent log; nothing else changes |
| `SqlLogger.Writer.constructor` | src/Writer.php:37-42 | the formatter and the configuration are fixed at construction |
| `SqlLogger.CreateDirectoryEffect` | src/Writer.php:66-71 | what the directory check does to the world: `directory()` is added to the directories only for query number 1 when nothing exists at it; otherwise the world is unchanged (consequences in `WriterProperties.CreateDirectoryRule`) |
| `SqlLogger.Writer.CreateDirectoryIfNotExists` | src/Writer.php:66-71 | the new world is `CreateDirectoryEffect` of the old one: `directory()` is added only for query number 1 and only if nothing exists at it |
| `WriterProperties.CreateDirectoryRule` | src/Writer.php:66-71 | the check never touches files or notifications; the world is unchanged unless the query is number 1 and the path is absent, and then only that directory is added; after query 1 the directory exists |
| `WriterProperties.CreateDirectoryIdempotent` | src/Writer.php:66-71 | repeating the directory check for the same query number changes nothing more |
| `SqlLogger.SaveLineEffect` | src/Writer.php:116-120 | what `saveLine` does to the world: the file at the log path becomes the line, or the old contents followed by the line (consequences in `WriterProperties.SaveLineRule`) |
| `SqlLogger.Writer.SaveLine` | src/Writer.php:116-120 | the new world is `SaveLineEffect` of the old one, at `directory()` + separator + file name |
| `WriterProperties.SaveLineRule` | src/Writer.php:116-120 | `saveLine` touches only `directory() + "/" + fileName`: overriding makes that file's contents exactly the line, appending adds the line to the old contents; other files, directories and notifications keep their values |
| `WriterProperties.AppendLinesContents` | src/Writer.php:116-120 | successive appending `saveLine` calls leave the old contents followed by all the lines, in order |
| `WriterProperties.OverrideThenAppend` | src/Writer.php:116-120 | one overriding write followed by appends leaves exactly the lines written since the override, whatever the file held before |
| `Environment.IsEmptyRoute` | src/Writer.php:154 | PHP `empty()` on the route string: true exactly for `""` and `"0"`, which both mean no dispatch |
| `Slack.BackTraceText` | src/Writer.php:138-141 | the backtrace section is the utility's output when it is available, and otherwise the literal `未実装` |
| `Slack.Content` | src/Writer.php:143-146 | the message is the database, query, request and backtrace pieces appended in that order (layout proved in `Slack.ContentIsSections` and `Slack.ContentLines`) |
| `Slack.SlowQueryNotification` | src/Writer.php:148-152 | the notification built by `toSlack`: level ERROR, not announced, the fixed title, and the message as its single field (stated in `Slack.NotificationAttributes`) |
| `Slack.SlowQuerySlackTitle` | src/Writer.php:28 | the attachment title is the literal `スロークエリー` |
| `SqlLogger.ToSlackEffect` | src/Writer.php:154-157 | what dispatch does to the world: the slow-query notification is appended to the sent log unless the route is `empty()` |
| `SqlLogger.Writer.ToSlack` | src/Writer.php:134-158 | builds the message by four successive appends and sends the slow-query notification for the context exactly when the route is not empty, otherwise leaving the world unchanged: the new world is `ToSlackEffect` of the old one |
| `Slack.ContentIsSections` | src/Writer.php:143-146 | whatever the fields hold, the message is the six sections (database, query header, query, request, backtrace tag, backtrace), in that order, each ended by a newline |
| `Text.LinesOfUnlines` | src/Writer.php:143-146 | splitting newline-ended lines gives the lines back when none contains a newline |
| `Slack.ContentLines` | src/Writer.php:143-146 | when no field contains a newline, the message splits into exactly those six lines |
| `Slack.ContentFrame` | src/Writer.php:138-146 | the message starts with `*database* <db>\n*query* (<time>)\n<query>\n` and ends with `*backTrace*\n<bt>\n`; without the backtrace utility `<bt>` is the literal `未実装` |
| `Slack.NotificationAttributes` | src/Writer.php:148-152 | the notification has level ERROR, is not announced, has the title `スロークエリー`, and its single field is the message |
| `SqlLogger.SaveEffect` | src/Writer.php:49-59 | what `save` does to the world: `CreateDirectoryEffect` for the query number, then `ToSlackEffect` for the formatter's context only if the slow gate holds (consequences in `WriterProperties.SaveNeverWrites`, `SaveDirectories` and `SaveNotifies`) |
| `SqlLogger.Writer.Save` | src/Writer.php:49-59 | the new world is `SaveEffect` of the old one: the directory check, then the alert only if the query is slow |
| `WriterProperties.SaveNeverWrites` | src/Writer.php:49-59 | `save` leaves every file's contents and the set of files unchanged |
| `WriterProperties.SaveDirectories` | src/Writer.php:49-59 | `save` changes directories exactly as the directory check does: never for a query other than number 1; after query 1 the directory exists |
| `WriterProperties.SaveNotifies` | src/Writer.php:49-59 | `save` keeps all earlier notifications and appends at most one; it appends one iff the slow gate holds and the route is not empty, and that one is the slow-query notification for the formatter's context |
| `WriterProperties.FirstSlowQueryScenario` | src/Writer.php:49-59 | query 1, `SELECT 1`, 5000 against a threshold of 1000, with a matching pattern, a missing directory `/var/log/sql/` and a route: the directory `/var/log/sql` is created and exactly that query's notification is sent |
| `WriterProperties.FirstSlowQueryPayload` | src/Writer.php:143-146 | in that scenario the message begins `*database* app\n*query* (5000)\nSELECT 1\n` |
| `WriterProperties.QuietScenarios` | src/Writer.php:103-107 | the same query at 500 sends nothing, and with slow logging off nothing is sent at any time |

## Left out

- Failures of the built-ins are not modelled. In this model `mkdir`, `file_put_contents` and
  the Slack dispatch always succeed. The PHP warnings and exceptions they can raise, and
  writing into a missing directory, are outside it.
- `mkdir` creates only the one directory path. Its recursive creation of parent directories
  and the `0777` mode are not modelled.
- `DIRECTORY_SEPARATOR` is fixed to `/`. Platform differences are left out.
- Regular-expression semantics are not modelled. `preg_match` is an arbitrary
  `(pattern, subject) -> bool` function, and its error result counts as no match.
- `Formatter` and `Config` are opaque. The formatter's outputs and the configuration values
  are inputs. `SqlQuery` is reduced to the number, the raw SQL and the time that the writer
  reads.
- The `FileName` collaborator and the writer's `fileName` field are not part of this model.
  No code in the writer uses them.
- The elapsed time is an integer. PHP float comparison and the time's string form in the
  message are not modelled; the string is part of the formatter's context.
- The backtrace utility is an optional string. The `method_exists` probe and the contents of
  the backtrace are outside the model.
- `routeNotificationForSlack()` is a string. A `null` route stands as `""`. Arrays and other
  PHP values are not modelled.
- A context missing one of its four keys is not modelled. PHP would report the missing
  key (a notice in PHP 7, a warning in PHP 8), and Laravel's error handler turns either into
  an `ErrorException` that aborts `toSlack`. The model's context always has all four fields.
- The `SlowQuerySlackNotification` and `SlackPosted` classes and the HTTP transport are
  reduced to the notification value appended to the sent log.
- Paths are compared as plain strings. Repeated or trailing separators are not normalised, so
  `/var/log/sql/` and `/var/log/sql` are different entries of the world, while the real
  `file_exists` treats them as the same directory.
- The parent directories of files and directories are not tracked. A world holding the file
  `/var/log/sql/q.log` and no directories has nothing at `/var/log/sql`, where the real
  `file_exists` would report the directory.
- `SaveLine`: the default argument `$override = false` is not modelled. Every call passes
  `override` explicitly. Nothing in the writer calls `saveLine`, so no call site is affected.
- Concurrency is not modelled: the check-then-create race on the directory, and interleaved
  appends from parallel requests.
