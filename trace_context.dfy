/**
 * Trace-context enrichment (Adapter.go, AddTraceID and AppendTracePoint).
 *
 * A Go context.Context is immutable: each enrichment returns a new context
 * layered on the old one. The adapter reads exactly two slots from it, the
 * trace id and the trace path, so the context is modelled as a record of two
 * optional strings. Only this adapter writes the two slots, and always with
 * strings.
 */
module TraceContext {
  import opened Base

  datatype Context = Context(id: Option<string>, trace: Option<string>)

  /** context.Background(): neither slot is set. */
  const Background: Context := Context(None, None)

  /** Separates the points of a trace path. */
  const PathSeparator: char := '>'

  /** Stores `id` in the id slot, replacing whatever was there. */
  function AddTraceID(ctx: Context, id: string): (r: Context)
    ensures r.id == Some(id)
    ensures r.trace == ctx.trace
  {
    ctx.(id := Some(id))
  }

  /** Starts the trace path with `point`, or extends the existing path by `>` and `point`. */
  function AppendTracePoint(ctx: Context, point: string): (r: Context)
    ensures r.id == ctx.id
    ensures ctx.trace.None? ==> r.trace == Some(point)
    ensures ctx.trace.Some? ==> r.trace == Some(ctx.trace.value + [PathSeparator] + point)
  {
    match ctx.trace
    case None => ctx.(trace := Some(point))
    case Some(path) => ctx.(trace := Some(path + [PathSeparator] + point))
  }

  /** AppendTracePoint applied once per point, in order. */
  function AppendTracePoints(ctx: Context, points: seq<string>): Context
    decreases |points|
  {
    if points == [] then ctx else AppendTracePoints(AppendTracePoint(ctx, points[0]), points[1..])
  }

  /** The points written one after another with `>` between neighbours. */
  function JoinPath(points: seq<string>): string
    requires points != []
  {
    if |points| == 1 then points[0] else points[0] + [PathSeparator] + JoinPath(points[1..])
  }

  /** Cuts a trace path at every `>`. */
  function SplitPath(path: string): (r: seq<string>)
    ensures r != []
    decreases |path|
  {
    if PathSeparator !in path then [path]
    else
      var i := IndexOf(path, PathSeparator);
      [path[..i]] + SplitPath(path[i + 1..])
  }

  predicate NoSeparator(points: seq<string>) {
    forall k :: 0 <= k < |points| ==> PathSeparator !in points[k]
  }

  /** Overwriting the id twice keeps only the second id. */
  lemma AddTraceIDOverwrites(ctx: Context, first: string, second: string)
    ensures AddTraceID(AddTraceID(ctx, first), second) == AddTraceID(ctx, second)
  {
  }

  /** The two enrichments touch different slots, so their order does not matter. */
  lemma EnrichmentsCommute(ctx: Context, id: string, point: string)
    ensures AddTraceID(AppendTracePoint(ctx, point), id) == AppendTracePoint(AddTraceID(ctx, id), point)
  {
  }

  /**
   * Appending a non-empty list of points extends the path by their joined
   * form (or starts it with that form), and never touches the id.
   */
  lemma {:induction false} AppendTracePointsJoins(ctx: Context, points: seq<string>)
    requires points != []
    ensures AppendTracePoints(ctx, points).id == ctx.id
    ensures AppendTracePoints(ctx, points).trace ==
      Some(match ctx.trace
           case None => JoinPath(points)
           case Some(path) => path + [PathSeparator] + JoinPath(points))
    decreases |points|
  {
    var next := AppendTracePoint(ctx, points[0]);
    if |points| > 1 {
      AppendTracePointsJoins(next, points[1..]);
      match ctx.trace
      case None =>
      case Some(path) =>
        assert path + [PathSeparator] + points[0] + [PathSeparator] + JoinPath(points[1..])
            == path + [PathSeparator] + (points[0] + [PathSeparator] + JoinPath(points[1..]));
    }
  }

  /** From an empty context, the points "a" then "b" give the path "a>b". */
  lemma TwoPointsFromBackground()
    ensures AppendTracePoint(AppendTracePoint(Background, "a"), "b").trace == Some("a>b")
    ensures AppendTracePoint(Background, "a").trace == Some("a")
  {
    assert "a" + [PathSeparator] + "b" == "a>b";
  }

  /** Splitting a joined path gives back its points, when no point holds a `>`. */
  lemma {:induction false} SplitJoin(points: seq<string>)
    requires points != [] && NoSeparator(points)
    ensures SplitPath(JoinPath(points)) == points
    decreases |points|
  {
    if |points| == 1 {
      assert PathSeparator !in points[0];
    } else {
      var first, rest := points[0], JoinPath(points[1..]);
      assert PathSeparator !in first;
      IndexOfAfterHead(first, PathSeparator, rest);
      var s := first + [PathSeparator] + rest;
      assert s[..|first|] == first && s[|first| + 1..] == rest;
      SplitJoin(points[1..]);
    }
  }

  /**
   * The breadcrumb round trip: the trace path built from an empty slot by
   * appending points without `>` splits back into exactly those points.
   */
  lemma TracePathRecoversPoints(ctx: Context, points: seq<string>)
    requires ctx.trace.None? && points != [] && NoSeparator(points)
    ensures AppendTracePoints(ctx, points).trace.Some?
    ensures SplitPath(AppendTracePoints(ctx, points).trace.value) == points
  {
    AppendTracePointsJoins(ctx, points);
    SplitJoin(points);
  }
}
