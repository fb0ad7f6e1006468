/**
 * Building one log line (Adapter.go, setTag and formatMessage).
 *
 * The timestamp, the colour library's styled tags and Go's `%v` rendering of
 * the attachment slice are outside the model: the timestamp is an argument,
 * and the two renderings are functions supplied by the caller.
 */
module Format {
  import opened Base
  import opened LogConfig
  import opened Levels
  import opened TraceContext

  /**
   * palette: the coloured tag for a known level.
   * render: the text of the attachment slice, in call order.
   */
  datatype Renderers<-A> = Renderers(palette: string -> string, render: seq<A> -> string)

  /** Shown in the id and trace fields when the context holds no value. */
  const Absent: string := "NONE"

  /** The plain tag: the level between square brackets. */
  function PlainTag(level: string): string {
    "[" + level + "]"
  }

  /** The tag: coloured only when colours are on and the level is one of the four known ones. */
  function SetTag(colors: bool, palette: string -> string, level: string): (tag: string)
    ensures !colors ==> tag == PlainTag(level)
    ensures colors && !IsKnown(level) ==> tag == PlainTag(level)
    ensures colors && IsKnown(level) ==> tag == palette(level)
  {
    if colors then
      if level == LevelError then palette(LevelError)
      else if level == LevelDebug then palette(LevelDebug)
      else if level == LevelInfo then palette(LevelInfo)
      else if level == LevelWarn then palette(LevelWarn)
      else PlainTag(level)
    else PlainTag(level)
  }

  /** The text shown in the id field. */
  function IdField(ctx: Context): string {
    match ctx.id
    case Some(id) => id
    case None => Absent
  }

  /** The text shown in the trace field. */
  function TraceField(ctx: Context): string {
    match ctx.trace
    case Some(path) => path
    case None => Absent
  }

  /** The fixed layout shared by every line: timestamp, tag, id, trace, message. */
  function Header(now: string, tag: string, id: string, trace: string, message: string): string {
    now + " " + tag + " [" + id + "] [" + trace + "] [" + message + "]"
  }

  function FormatMessage<A>(cfg: Config, rs: Renderers<A>, now: string, ctx: Context,
                            level: string, message: string, options: seq<A>): (line: string)
    ensures var head := Header(now, SetTag(cfg.colors, rs.palette, level), IdField(ctx), TraceField(ctx), message);
      && (options == [] ==> line == head)
      && (options != [] ==> line == head + " : " + rs.render(options))
  {
    var tag := SetTag(cfg.colors, rs.palette, level);
    var head := Header(now, tag, IdField(ctx), TraceField(ctx), message);
    if |options| == 0 then head else head + " : " + rs.render(options)
  }

  /** With no id and no trace path in the context, both fields read NONE. */
  lemma EmptyContextShowsNone<A>(cfg: Config, rs: Renderers<A>, now: string, level: string, message: string)
    ensures FormatMessage(cfg, rs, now, Background, level, message, []) ==
      now + " " + SetTag(cfg.colors, rs.palette, level) + " [NONE] [NONE] [" + message + "]"
  {
  }

  /** An id and a path stored in the context are shown verbatim, even when empty. */
  lemma StoredValuesShownVerbatim<A>(cfg: Config, rs: Renderers<A>, now: string, ctx: Context,
                                     id: string, point: string, level: string, message: string)
    requires ctx.trace.None?
    ensures var enriched := AppendTracePoint(AddTraceID(ctx, id), point);
      FormatMessage(cfg, rs, now, enriched, level, message, []) ==
        now + " " + SetTag(cfg.colors, rs.palette, level) + " [" + id + "] [" + point + "] [" + message + "]"
  {
  }

  /**
   * Attachments only append: the line with attachments is the line without
   * them followed by " : " and their rendering; the plain-text fields do not
   * depend on the attachments.
   */
  lemma AttachmentsOnlyAppend<A>(cfg: Config, rs: Renderers<A>, now: string, ctx: Context,
                                 level: string, message: string, options: seq<A>)
    requires options != []
    ensures FormatMessage(cfg, rs, now, ctx, level, message, options) ==
      FormatMessage(cfg, rs, now, ctx, level, message, []) + " : " + rs.render(options)
  {
  }

  /** The three bracketed fields of a line without attachments, as they follow the tag. */
  function Fields(id: string, trace: string, message: string): string {
    "[" + id + "]" + TailFields(trace, message)
  }

  /** What follows the id field: the trace and message fields, each after a space. */
  function TailFields(trace: string, message: string): string {
    " [" + trace + "]" + " [" + message + "]"
  }

  /** Reads one bracketed field: the text up to the first `]`, and what follows that `]`. */
  function ReadField(s: string): Option<(string, string)> {
    if |s| == 0 || s[0] != '[' || ']' !in s[1..] then None
    else
      var i := IndexOf(s[1..], ']');
      Some((s[1..][..i], s[1..][i + 1..]))
  }

  /**
   * Reads the id, trace and message fields back: the id and the trace each
   * end at their first `]`; the message runs to the final `]`.
   */
  function ParseFields(s: string): Option<(string, string, string)> {
    match ReadField(s)
    case None => None
    case Some((id, afterId)) =>
      match ParseTailFields(afterId)
      case None => None
      case Some((trace, message)) => Some((id, trace, message))
  }

  /** Reads the trace and message fields that follow the id field. */
  function ParseTailFields(s: string): Option<(string, string)> {
    if |s| == 0 || s[0] != ' ' then None
    else match ReadField(s[1..])
      case None => None
      case Some((trace, rest)) =>
        if |rest| < 3 || rest[..2] != " [" || rest[|rest| - 1] != ']' then None
        else Some((trace, rest[2..|rest| - 1]))
  }

  lemma ReadFieldOf(field: string, rest: string)
    requires ']' !in field
    ensures ReadField("[" + field + "]" + rest) == Some((field, rest))
  {
    var s := "[" + field + "]" + rest;
    assert s[1..] == field + "]" + rest;
    IndexOfAfterHead(field, ']', rest);
    assert s[1..][..|field|] == field;
    assert s[1..][|field| + 1..] == rest;
  }

  lemma TailFieldsReadBack(trace: string, message: string)
    requires ']' !in trace
    ensures ParseTailFields(TailFields(trace, message)) == Some((trace, message))
  {
    var rest := " [" + message + "]";
    var s := TailFields(trace, message);
    assert s[0] == ' ' && s[1..] == "[" + trace + "]" + rest;
    ReadFieldOf(trace, rest);
    assert rest[2..|rest| - 1] == message;
  }

  /** When neither the id nor the trace holds a `]`, the fields read back exactly. */
  lemma FieldsReadBack(id: string, trace: string, message: string)
    requires ']' !in id && ']' !in trace
    ensures ParseFields(Fields(id, trace, message)) == Some((id, trace, message))
  {
    ReadFieldOf(id, TailFields(trace, message));
    TailFieldsReadBack(trace, message);
  }

  /**
   * A line without attachments is the timestamp, the tag and the three
   * fields, and a reader can take the id, trace and message back out of it.
   */
  lemma LineReadsBack<A>(cfg: Config, rs: Renderers<A>, now: string, ctx: Context, level: string, message: string)
    requires ']' !in IdField(ctx) && ']' !in TraceField(ctx)
    ensures var line := FormatMessage(cfg, rs, now, ctx, level, message, []);
      var lead := now + " " + SetTag(cfg.colors, rs.palette, level) + " ";
      && |lead| <= |line| && line[..|lead|] == lead
      && ParseFields(line[|lead|..]) == Some((IdField(ctx), TraceField(ctx), message))
  {
    var line := FormatMessage(cfg, rs, now, ctx, level, message, []);
    var lead := now + " " + SetTag(cfg.colors, rs.palette, level) + " ";
    var fields := Fields(IdField(ctx), TraceField(ctx), message);
    assert line == lead + fields;
    FieldsReadBack(IdField(ctx), TraceField(ctx), message);
  }
}
