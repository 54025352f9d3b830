/**
 * The text a Logger writes for one entry, under the two formatters of the
 * library: MarkdownLogger's (heading, severity, elapsed time) and the one
 * that Utils.format_logger and the older Proxy install (heading, severity,
 * process id, timestamp).
 *
 * Clock readings and the process id are given as the text they print as.
 */
module Formatter {

  /** Logger's severities, with the labels Logger#format_severity gives them. */
  datatype Severity = Debug | Info | Warn | Error | Fatal | Unknown

  function Label(s: Severity): string {
    match s
    case Debug => "DEBUG"
    case Info => "INFO"
    case Warn => "WARN"
    case Error => "ERROR"
    case Fatal => "FATAL"
    case Unknown => "ANY"
  }

  /** String#* on a one-character string. */
  function Repeat(c: char, n: nat): (r: string)
    ensures |r| == n
    ensures forall i :: 0 <= i < n ==> r[i] == c
    decreases n
  {
    if n == 0 then [] else [c] + Repeat(c, n - 1)
  }

  /** How many '#' a text starts with: the heading level a markdown reader sees. */
  function LeadingHashes(s: string): nat
    decreases |s|
  {
    if s != [] && s[0] == '#' then 1 + LeadingHashes(s[1..]) else 0
  }

  lemma {:induction false} LeadingHashesOfHeading(n: nat, rest: string)
    requires rest == [] || rest[0] != '#'
    ensures LeadingHashes(Repeat('#', n) + rest) == n
    decreases n
  {
    if n > 0 {
      var s := Repeat('#', n) + rest;
      assert s[0] == '#';
      assert s[1..] == Repeat('#', n - 1) + rest;
      LeadingHashesOfHeading(n - 1, rest);
    } else {
      assert Repeat('#', 0) + rest == rest;
    }
  }

  /** MarkdownLogger#markdown_formatter. */
  function MarkdownFormat(heading: nat, severity: Severity, elapsed: string, msg: string): string {
    Repeat('#', heading) + " " + Label(severity) + " at +" + elapsed + " -- " + msg + "\n\n"
  }

  /** The formatter of Utils.format_logger and of the older Proxy's logger. */
  function PidFormat(heading: nat, severity: Severity, pid: string, time: string, msg: string): string {
    Repeat('#', heading) + " " + Label(severity) + " in " + pid + " at " + time + " -- " + msg + "\n\n"
  }

  /** A formatted entry is a markdown heading of the given level: exactly
      that many '#', a space, the severity name, and a closing blank line. */
  predicate HeadingShaped(r: string, heading: nat, severity: Severity) {
    var name := Label(severity);
    && |r| >= heading + 1 + |name| + 2
    && LeadingHashes(r) == heading
    && r[..heading] == Repeat('#', heading)
    && r[heading] == ' '
    && r[heading + 1..heading + 1 + |name|] == name
    && r[|r| - 2..] == "\n\n"
  }

  lemma ShapeOf(heading: nat, severity: Severity, middle: string, r: string)
    requires r == Repeat('#', heading) + " " + Label(severity) + middle + "\n\n"
    ensures HeadingShaped(r, heading, severity)
  {
    var name := Label(severity);
    var rest := " " + name + middle + "\n\n";
    assert r == Repeat('#', heading) + rest;
    LeadingHashesOfHeading(heading, rest);
    assert r[..heading] == Repeat('#', heading);
    assert r[heading..] == rest;
    assert rest[1..1 + |name|] == name;
  }

  lemma MarkdownFormatShape(heading: nat, severity: Severity, elapsed: string, msg: string)
    ensures HeadingShaped(MarkdownFormat(heading, severity, elapsed, msg), heading, severity)
  {
    var middle := " at +" + elapsed + " -- " + msg;
    assert MarkdownFormat(heading, severity, elapsed, msg)
        == Repeat('#', heading) + " " + Label(severity) + middle + "\n\n";
    ShapeOf(heading, severity, middle, MarkdownFormat(heading, severity, elapsed, msg));
  }

  lemma PidFormatShape(heading: nat, severity: Severity, pid: string, time: string, msg: string)
    ensures HeadingShaped(PidFormat(heading, severity, pid, time, msg), heading, severity)
  {
    var middle := " in " + pid + " at " + time + " -- " + msg;
    assert PidFormat(heading, severity, pid, time, msg)
        == Repeat('#', heading) + " " + Label(severity) + middle + "\n\n";
    ShapeOf(heading, severity, middle, PidFormat(heading, severity, pid, time, msg));
  }
}
