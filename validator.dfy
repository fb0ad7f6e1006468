/** The configuration check run before an adapter is built (validator.go). */
module Validator {
  import opened Base
  import opened LogConfig
  import opened Levels

  /**
   * None stands for Go's nil error. Only the configured level is inspected:
   * it must be a key of the granularity table.
   */
  function ValidateCfg(table: Granularity, cfg: Config): (err: Option<string>)
    ensures err.None? <==> cfg.level in table
    ensures err.Some? ==> err.value == "Unknown log level '" + cfg.level + "'"
  {
    if cfg.level in table then None else Some("Unknown log level '" + cfg.level + "'")
  }

  predicate IsInfix(part: string, whole: string) {
    exists i :: 0 <= i <= |whole| && part <= whole[i..]
  }

  /** The error quotes the offending level verbatim, between single quotes. */
  lemma ErrorQuotesLevel(table: Granularity, cfg: Config)
    requires cfg.level !in table
    ensures ValidateCfg(table, cfg).Some?
    ensures IsInfix("'" + cfg.level + "'", ValidateCfg(table, cfg).value)
  {
    var prefix := "Unknown log level ";
    var quoted := "'" + cfg.level + "'";
    var msg := ValidateCfg(table, cfg).value;
    assert msg == prefix + quoted;
    assert msg[|prefix|..] == quoted;
  }

  /**
   * Colours, sinks and directory are never inspected: two configurations with
   * the same level get the same verdict, so file output with an empty
   * directory still validates.
   */
  lemma OnlyLevelMatters(table: Granularity, cfg: Config, other: Config)
    requires other.level == cfg.level
    ensures ValidateCfg(table, other) == ValidateCfg(table, cfg)
  {
  }

  /** A known level is accepted even with file output on and no directory. */
  lemma FileWithoutDirectoryValidates(table: Granularity, level: string)
    requires level in table
    ensures ValidateCfg(table, Config(level, false, false, true, "")).None?
  {
  }
}
