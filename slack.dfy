/**
 * The slow-query chat message: the context record produced by the formatter,
 * the notification value handed to the chat sink, and the exact text layout
 * of its single field.
 */
module Slack {
  import opened Wrappers
  import opened Text

  /** What `Formatter::getSlackRecord` returns, as the strings interpolated into the message. */
  datatype SlackRecord = SlackRecord(database: string, time: string, query: string, request: string)

  /** Severity of a notification; the writer only ever uses ERROR. */
  datatype Level = Error

  /** A `SlowQuerySlackNotification` after its setters have run. */
  datatype Notification = Notification(
    level: Level,
    isAnnounced: bool,
    attachmentTitle: string,
    fields: seq<string>)

  /** `Writer::SLOW_QUERY_SLACK_TITLE` ("slow query"). */
  const SlowQuerySlackTitle: string := "スロークエリー"

  /** Backtrace text used when the backtrace utility is unavailable ("not implemented"). */
  const BackTracePlaceholder: string := "未実装"

  /** The backtrace section: what the utility returns, or the placeholder when it is absent. */
  function BackTraceText(bt: Option<string>): string {
    match bt
    case Some(t) => t
    case None => BackTracePlaceholder
  }

  /** The message text: the four pieces the writer appends, in order. */
  function Content(ctx: SlackRecord, backTrace: string): string {
    var database := "*database* " + ctx.database + "\n";
    var query := "*query* (" + ctx.time + ")\n" + ctx.query + "\n";
    var request := ctx.request + "\n";
    var trace := "*backTrace*\n" + backTrace + "\n";
    database + query + request + trace
  }

  /** The six lines of the message as a reader of the channel sees them. */
  function Sections(ctx: SlackRecord, backTrace: string): seq<string> {
    ["*database* " + ctx.database,
     "*query* (" + ctx.time + ")",
     ctx.query,
     ctx.request,
     "*backTrace*",
     backTrace]
  }

  /** The notification `toSlack` builds for a context and a backtrace capability. */
  function SlowQueryNotification(ctx: SlackRecord, bt: Option<string>): Notification {
    Notification(Error, false, SlowQuerySlackTitle, [Content(ctx, BackTraceText(bt))])
  }

  /** Whatever the fields hold, the text is the sections each terminated by a newline. */
  lemma ContentIsSections(ctx: SlackRecord, backTrace: string)
    ensures Content(ctx, backTrace) == Unlines(Sections(ctx, backTrace))
  {
    var ls := Sections(ctx, backTrace);
    calc {
      Unlines(ls);
      ls[0] + "\n" + Unlines(ls[1..]);
      ls[0] + "\n" + (ls[1] + "\n" + Unlines(ls[2..]));
      ls[0] + "\n" + (ls[1] + "\n" + (ls[2] + "\n" + Unlines(ls[3..])));
      ls[0] + "\n" + (ls[1] + "\n" + (ls[2] + "\n" + (ls[3] + "\n" + Unlines(ls[4..]))));
      ls[0] + "\n" + (ls[1] + "\n" + (ls[2] + "\n" + (ls[3] + "\n" + (ls[4] + "\n" + Unlines(ls[5..])))));
      { assert ls[5..][1..] == []; }
      ls[0] + "\n" + (ls[1] + "\n" + (ls[2] + "\n" + (ls[3] + "\n" + (ls[4] + "\n" + (ls[5] + "\n")))));
      Content(ctx, backTrace);
    }
  }

  /**
   * When no field contains a newline, the message splits into exactly the
   * six sections, in order: database, query header, query, request, the
   * backtrace tag and the backtrace.
   */
  lemma ContentLines(ctx: SlackRecord, backTrace: string)
    requires '\n' !in ctx.database && '\n' !in ctx.time && '\n' !in ctx.query
    requires '\n' !in ctx.request && '\n' !in backTrace
    ensures Lines(Content(ctx, backTrace)) == Sections(ctx, backTrace)
  {
    ContentIsSections(ctx, backTrace);
    var ls := Sections(ctx, backTrace);
    forall j | 0 <= j < |ls| ensures '\n' !in ls[j] {
      if j == 0 {
        assert ls[0] == "*database* " + ctx.database;
      } else if j == 1 {
        assert ls[1] == "*query* (" + ctx.time + ")";
      }
    }
    LinesOfUnlines(ls);
  }

  /**
   * The message starts with the database section followed by the query
   * header and the query, and ends with the backtrace section; without a
   * backtrace utility that section is the placeholder.
   */
  lemma ContentFrame(ctx: SlackRecord, bt: Option<string>)
    ensures "*database* " + ctx.database + "\n*query* (" + ctx.time + ")\n" + ctx.query + "\n"
            <= Content(ctx, BackTraceText(bt))
    ensures var c, tail := Content(ctx, BackTraceText(bt)), "*backTrace*\n" + BackTraceText(bt) + "\n";
            |tail| <= |c| && c[|c| - |tail|..] == tail
    ensures bt.None? ==> BackTraceText(bt) == BackTracePlaceholder
  {
  }

  /** The notification's fixed attributes and its single field. */
  lemma NotificationAttributes(ctx: SlackRecord, bt: Option<string>)
    ensures var n := SlowQueryNotification(ctx, bt);
            n.level == Error && !n.isAnnounced && n.attachmentTitle == SlowQuerySlackTitle
            && n.fields == [Content(ctx, BackTraceText(bt))]
            && n.fields[0] == Unlines(Sections(ctx, BackTraceText(bt)))
  {
    ContentIsSections(ctx, BackTraceText(bt));
  }
}
