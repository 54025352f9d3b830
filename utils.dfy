/**
 * MarkdownLoggingProxy::Utils: a heading level kept on the module itself,
 * and a formatter for a plain Ruby Logger that reads that level each time
 * it formats an entry.
 */
module Utils {
  import opened Wrappers
  import opened Formatter
  import opened Sink

  /** `@heading_level || 1`: an unset level reads as 1. */
  function LevelOrDefault(level: Option<nat>): (r: nat)
    ensures level.Some? ==> r == level.value
    ensures level.None? ==> r == 1
  {
    if level.Some? then level.value else 1
  }

  /** The module's own @heading_level, nil until it is first assigned. */
  class HeadingSetting {
    var level: Option<nat>

    constructor ()
      ensures level == None && HeadingLevel() == 1
    {
      level := None;
    }

    /** Utils.heading_level. */
    function HeadingLevel(): (r: nat)
      reads this
      ensures level.None? ==> r == 1
    {
      LevelOrDefault(level)
    }

    /** Utils.heading_level=; assigning nil brings the default back. */
    method SetHeadingLevel(level: Option<nat>)
      modifies this
      ensures this.level == level
      ensures level.Some? ==> HeadingLevel() == level.value
      ensures level.None? ==> HeadingLevel() == 1
    {
      this.level := level;
    }
  }

  /** Utils.create_logger: a Logger is used as it is, anything else gets a
      new Logger; either way format_logger installs the module's formatter
      on it, replacing the one it had, so every later entry it writes is
      formatted at the module's heading level. */
  method CreateLogger(setting: HeadingSetting, location: Location) returns (l: StdLogger)
    modifies if location.Existing? then {location.logger} else {}
    ensures location.Existing? ==> l == location.logger && l.records == old(location.logger.records)
    ensures location.Destination? ==> fresh(l) && l.records == []
    ensures l.formatter == setting
  {
    l := LoggerInstance(location);
    l.Install(setting);
  }

  /** The text format_logger's formatter makes of an entry written while
      the module's level is `level`: a markdown heading of that level (one
      '#' while it is unset), the severity, and a closing blank line. */
  lemma FormattedAtLevel(level: Option<nat>, severity: Severity, pid: string, time: string, msg: string)
    ensures HeadingShaped(PidFormat(LevelOrDefault(level), severity, pid, time, msg), LevelOrDefault(level), severity)
    ensures level.None? ==> LeadingHashes(PidFormat(LevelOrDefault(level), severity, pid, time, msg)) == 1
    ensures level.Some? ==> LeadingHashes(PidFormat(LevelOrDefault(level), severity, pid, time, msg)) == level.value
  {
    PidFormatShape(LevelOrDefault(level), severity, pid, time, msg);
  }
}
