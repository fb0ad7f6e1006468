/** The adapter's configuration record (Config.go). It carries no logic of its own. */
module LogConfig {

  /**
   * Level: the configured threshold level name.
   * Colors: whether level tags are coloured.
   * Console, File: which sinks are enabled.
   * Directory: where out.log lives when File is set.
   */
  datatype Config = Config(
    level: string,
    colors: bool,
    console: bool,
    file: bool,
    directory: string)
}
