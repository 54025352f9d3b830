/**
 * MarkdownLogger: a Ruby Logger plus the heading level its formatter puts
 * in front of every entry, the `backtrace:` option, and the clock reading
 * taken when it was made.
 *
 * Its Logger is modelled by the entries handed to the formatter (Sink); the
 * text the formatter makes of an entry is Formatter.MarkdownFormat, with the
 * elapsed time given as the text it prints as.
 */
module Logging {
  import opened Wrappers
  import Inspector
  import opened Formatter
  import opened Sink
  import opened Backtrace
  import Utils

  /** The heading `log` uses when the caller gives none. */
  const DefaultHeading: nat := 3

  /** The heading level the installed formatter of a Logger reads when it
      runs: a MarkdownLogger's formatter reads that logger's heading_level,
      the Utils formatter the module's heading level; Ruby's own formatter
      writes no '#' at all. */
  function FormatterHeading(f: object?): nat
    reads f
  {
    if f is MarkdownLogger then (f as MarkdownLogger).headingLevel
    else if f is Utils.HeadingSetting then (f as Utils.HeadingSetting).HeadingLevel()
    else 0
  }

  /** `logger.send(level, msg)`: the Logger hands the message to its
      installed formatter, which reads its installer's heading level then. */
  method Send(l: StdLogger, severity: Severity, msg: string)
    modifies l
    ensures l.formatter == old(l.formatter)
    ensures l.records == old(l.records) + [Entry(severity, FormatterHeading(l.formatter), msg)]
  {
    l.Add(Entry(severity, FormatterHeading(l.formatter), msg));
  }

  /** The entries a Logger writes for entries logged at their own headings:
      all of them, in order, with the heading of a formatter not their
      logger's own in place of theirs when `installed` names one. */
  function Shown(installed: Option<nat>, entries: seq<Entry>): seq<Entry> {
    if installed.None? then entries
    else seq(|entries|, i requires 0 <= i < |entries| => entries[i].(heading := installed.value))
  }

  class MarkdownLogger {
    const stdLogger: StdLogger
    const backtrace: Policy
    /** Time.now when the logger was made, as a clock reading. */
    const createdAt: int
    var headingLevel: nat

    /** MarkdownLogger.new(location, backtrace:): the Logger of the location
        (see Sink.LoggerInstance), with this logger's formatter installed on
        it in place of any other, and heading level 1. */
    constructor (location: Location, backtrace: Policy, createdAt: int)
      modifies if location.Existing? then {location.logger} else {}
      ensures headingLevel == 1
      ensures this.backtrace == backtrace && this.createdAt == createdAt
      ensures location.Existing? ==> stdLogger == location.logger && stdLogger.records == old(location.logger.records)
      ensures location.Destination? ==> fresh(stdLogger) && stdLogger.records == []
      ensures stdLogger.formatter == this && InstalledHeading() == None
    {
      var l := LoggerInstance(location);
      stdLogger := l;
      this.backtrace := backtrace;
      this.createdAt := createdAt;
      headingLevel := 1;
      new;
      l.Install(this);
    }

    /** None while the Logger runs this logger's own formatter, which reads
        the heading this logger logs at; otherwise the heading the formatter
        installed since reads, which this logger's logging leaves alone. */
    function InstalledHeading(): Option<nat>
      reads stdLogger, stdLogger.formatter
    {
      if stdLogger.formatter == this then None else Some(FormatterHeading(stdLogger.formatter))
    }

    /** MarkdownLogger#log: the heading is set first, then the Logger formats
        one entry with whichever formatter it has. */
    method Log(level: Severity, heading: nat, msg: string)
      modifies this, stdLogger
      ensures headingLevel == heading
      ensures stdLogger.formatter == old(stdLogger.formatter)
      ensures stdLogger.records == old(stdLogger.records) + [Entry(level, FormatterHeading(stdLogger.formatter), msg)]
      ensures InstalledHeading() == old(InstalledHeading())
      ensures stdLogger.records == old(stdLogger.records) + Shown(old(InstalledHeading()), [Entry(level, heading, msg)])
    {
      headingLevel := heading;
      Send(stdLogger, level, msg);
    }

    /** `log` called without a heading. */
    method LogAtDefault(level: Severity, msg: string)
      modifies this, stdLogger
      ensures headingLevel == DefaultHeading
      ensures stdLogger.formatter == old(stdLogger.formatter)
      ensures stdLogger.records == old(stdLogger.records) + [Entry(level, FormatterHeading(stdLogger.formatter), msg)]
      ensures InstalledHeading() == old(InstalledHeading())
      ensures stdLogger.records == old(stdLogger.records) + Shown(old(InstalledHeading()), [Entry(level, DefaultHeading, msg)])
    {
      Log(level, DefaultHeading, msg);
    }

    /** MarkdownLogger#inspect_backtrace over the given caller frames. */
    function InspectBacktrace(frames: seq<string>): (r: Option<string>)
      ensures r.None? <==> backtrace.Off?
    {
      Backtrace.InspectBacktrace(backtrace, frames)
    }

    /** The text the Logger writes for one of its entries, `elapsed` seconds
        after the logger was made. */
    function Formatted(e: Entry, elapsed: string): string {
      MarkdownFormat(e.heading, e.severity, elapsed, e.msg)
    }
  }

  /** What a Logger shows of entries logged at their own headings keeps
      each entry's place, severity and message; only the heading can be
      another formatter's. */
  lemma ShownKeeps(installed: Option<nat>, entries: seq<Entry>)
    ensures |Shown(installed, entries)| == |entries|
    ensures forall i :: 0 <= i < |entries| ==>
      Shown(installed, entries)[i].severity == entries[i].severity
      && Shown(installed, entries)[i].msg == entries[i].msg
      && Shown(installed, entries)[i].heading == (if installed.None? then entries[i].heading else installed.value)
  {
  }

  lemma ShownConcat(installed: Option<nat>, a: seq<Entry>, b: seq<Entry>)
    ensures Shown(installed, a + b) == Shown(installed, a) + Shown(installed, b)
  {
    if installed.Some? {
      var l, r := Shown(installed, a + b), Shown(installed, a) + Shown(installed, b);
      assert |l| == |r|;
      forall i | 0 <= i < |l|
        ensures l[i] == r[i]
      {
        if i < |a| {
          assert (a + b)[i] == a[i];
        } else {
          assert (a + b)[i] == b[i - |a|];
        }
      }
    }
  }

  /** A formatter shows an entry of each kind as an entry of that kind, so
      the log holds as many entries of each kind as were logged. */
  lemma {:induction false} CountShown(installed: Option<nat>, entries: seq<Entry>, k: Kind)
    ensures Count(Shown(installed, entries), k) == Count(entries, k)
    decreases |entries|
  {
    if installed.Some? && entries != [] {
      var init := entries[..|entries| - 1];
      var shown := Shown(installed, entries);
      assert shown[..|shown| - 1] == Shown(installed, init);
      assert shown[|shown| - 1].msg == entries[|entries| - 1].msg;
      CountShown(installed, init, k);
    }
  }

  /** Two MarkdownLoggers over one Logger: once the second has installed its
      formatter, the first one's entries carry the second one's heading. */
  lemma LastInstallWins(first: MarkdownLogger, second: MarkdownLogger)
    requires first != second && first.stdLogger == second.stdLogger && second.stdLogger.formatter == second
    ensures first.InstalledHeading() == Some(second.headingLevel)
    ensures second.InstalledHeading() == None
  {
  }

  /** A MarkdownLogger whose Logger has since been given the Utils formatter
      writes at the Utils module's heading level. */
  lemma UtilsFormatterWins(m: MarkdownLogger, setting: Utils.HeadingSetting)
    requires m.stdLogger.formatter == setting
    ensures m.InstalledHeading() == Some(setting.HeadingLevel())
  {
  }

  /** Every text the logger writes is a markdown heading at the level the
      entry was logged with, naming its severity and ending in a blank line. */
  lemma FormattedIsHeading(l: MarkdownLogger, e: Entry, elapsed: string)
    ensures HeadingShaped(l.Formatted(e, elapsed), e.heading, e.severity)
  {
    MarkdownFormatShape(e.heading, e.severity, elapsed, e.msg);
  }

  /** What MarkdownLogger.build accepts: a MarkdownLogger, or a location for
      a new one. */
  datatype LoggerLocation = Markdown(logger: MarkdownLogger) | Plain(location: Location)

  /** MarkdownLogger.build: a MarkdownLogger is returned as it is (so
      proxies made from one another share one log, one heading and one
      creation time); anything else gets a new MarkdownLogger. */
  method Build(location: LoggerLocation, backtrace: Policy, now: int) returns (l: MarkdownLogger)
    modifies if location.Plain? && location.location.Existing? then {location.location.logger} else {}
    ensures location.Markdown? ==> l == location.logger
    ensures location.Plain? ==> fresh(l) && l.headingLevel == 1 && l.backtrace == backtrace && l.createdAt == now
    ensures location.Plain? ==> l.stdLogger.formatter == l && l.InstalledHeading() == None
    ensures location.Plain? && location.location.Existing? ==>
      l.stdLogger == location.location.logger && l.stdLogger.records == old(location.location.logger.records)
    ensures location.Plain? && location.location.Destination? ==> fresh(l.stdLogger) && l.stdLogger.records == []
  {
    match location
    case Markdown(logger) => l := logger;
    case Plain(loc) => l := new MarkdownLogger(loc, backtrace, now);
  }
}
