/**
 * The level policy: the four level names, the granularity table that ranks
 * them, and the threshold test the adapter applies to every log call.
 *
 * The granularity table is defined outside the modelled files, so it is a
 * parameter here; nothing is assumed about the ranks it assigns.
 */
module Levels {

  const LevelError: string := "ERROR"
  const LevelWarn: string := "WARN"
  const LevelDebug: string := "DEBUG"
  const LevelInfo: string := "INFO"

  /** A table from level names to ranks, as a Go map[string]int. */
  type Granularity = map<string, int>

  predicate IsKnown(level: string) {
    level == LevelError || level == LevelWarn || level == LevelDebug || level == LevelInfo
  }

  /** A Go map lookup: a level missing from the table has rank 0. */
  function Rank(table: Granularity, level: string): int {
    if level in table then table[level] else 0
  }

  /** Whether a call at `level` passes the threshold `configured`. */
  function IsLoggable(table: Granularity, configured: string, level: string): (r: bool)
    ensures r <==> Rank(table, level) >= Rank(table, configured)
    // a configured level always admits calls at that same level
    ensures level == configured ==> r
    // a call level the table does not know is filtered out when the threshold's rank is positive
    ensures level !in table && Rank(table, configured) > 0 ==> !r
  {
    Rank(table, level) >= Rank(table, configured)
  }

  /**
   * The verbosity order the configuration's documentation describes:
   * ERROR admits only ERROR, WARN admits ERROR and WARN, DEBUG adds DEBUG,
   * INFO admits all four.
   */
  function Verbosity(level: string): nat
    requires IsKnown(level)
  {
    if level == LevelError then 0
    else if level == LevelWarn then 1
    else if level == LevelDebug then 2
    else 3
  }

  /** The threshold test agrees with the documented verbosity order on the four known levels. */
  ghost predicate FollowsDocumentedOrder(table: Granularity) {
    forall configured, level ::
      IsKnown(configured) && IsKnown(level) ==>
        (IsLoggable(table, configured, level) <==> Verbosity(level) <= Verbosity(configured))
  }

  /** The ranks fall strictly as verbosity grows: INFO lowest, ERROR highest. */
  predicate RanksFallWithVerbosity(table: Granularity) {
    Rank(table, LevelInfo) < Rank(table, LevelDebug) < Rank(table, LevelWarn) < Rank(table, LevelError)
  }

  /**
   * Because the test is `rank(call) >= rank(threshold)`, the documented order
   * holds exactly for tables that rank ERROR highest and INFO lowest.
   */
  lemma DocumentedOrderIff(table: Granularity)
    ensures FollowsDocumentedOrder(table) <==> RanksFallWithVerbosity(table)
  {
    if FollowsDocumentedOrder(table) {
      assert IsLoggable(table, LevelWarn, LevelError) && !IsLoggable(table, LevelError, LevelWarn);
      assert IsLoggable(table, LevelDebug, LevelWarn) && !IsLoggable(table, LevelWarn, LevelDebug);
      assert IsLoggable(table, LevelInfo, LevelDebug) && !IsLoggable(table, LevelDebug, LevelInfo);
    }
    if RanksFallWithVerbosity(table) {
      forall configured, level | IsKnown(configured) && IsKnown(level)
        ensures IsLoggable(table, configured, level) <==> Verbosity(level) <= Verbosity(configured)
      {
      }
    }
  }

  /**
   * A table that ranks ERROR lowest (ERROR=1, DEBUG=2, WARN=3, INFO=4) gives
   * the opposite of the documented behaviour: a threshold of ERROR admits INFO
   * calls, and a threshold of INFO rejects ERROR calls.
   */
  lemma AscendingTableReversesDocumentedOrder()
    ensures var table := map[LevelError := 1, LevelDebug := 2, LevelWarn := 3, LevelInfo := 4];
      && IsLoggable(table, LevelError, LevelInfo)
      && !IsLoggable(table, LevelInfo, LevelError)
      && !FollowsDocumentedOrder(table)
  {
    var table := map[LevelError := 1, LevelDebug := 2, LevelWarn := 3, LevelInfo := 4];
    DocumentedOrderIff(table);
  }
}
