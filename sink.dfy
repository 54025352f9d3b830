/**
 * Ruby's Logger as the tracing code uses it: an append-only list of the
 * entries handed to its formatter, and the choice between reusing a Logger
 * and opening a new one on a location.
 *
 * What a Logger then writes to a file or stream is the formatter's text
 * (see Formatter); the sinks themselves are not modelled.
 */
module Sink {
  import opened Formatter

  /** One call of the formatter: the severity, the heading level the
      formatter read when it ran, and the message. */
  datatype Entry = Entry(severity: Severity, heading: nat, msg: string)

  /** A Ruby Logger. Its formatter is a proc that closes over the object
      that installed it and reads that object's heading level each time it
      runs: `formatter` is that object (a MarkdownLogger, or the Utils
      module's heading setting), or null while the Logger has Ruby's own
      formatter. */
  class StdLogger {
    var records: seq<Entry>
    var formatter: object?

    constructor ()
      ensures records == [] && formatter == null
    {
      records := [];
      formatter := null;
    }

    method Add(e: Entry)
      modifies this
      ensures records == old(records) + [e]
      ensures formatter == old(formatter)
    {
      records := records + [e];
    }

    /** `logger.formatter = ...`: the new formatter replaces whichever one
        was installed before; what the Logger has written stays. */
    method Install(owner: object)
      modifies this
      ensures formatter == owner
      ensures records == old(records)
    {
      formatter := owner;
    }
  }

  /** A log destination: an existing Logger, or anything Logger.new accepts
      (a path, a Pathname, an IO), named by the text it stands for. */
  datatype Location = Existing(logger: StdLogger) | Destination(name: string)

  /** MarkdownLogger#logger_instance and the first half of
      Utils.create_logger: a Logger is used as it is, anything else gets a
      new, empty Logger. */
  method LoggerInstance(location: Location) returns (l: StdLogger)
    ensures location.Existing? ==> l == location.logger
    ensures location.Destination? ==> fresh(l) && l.records == [] && l.formatter == null
  {
    match location
    case Existing(logger) => l := logger;
    case Destination(_) => l := new StdLogger();
  }

  /** Which message of the tracing code an entry holds, read from how its
      text begins: "Calling", a backtick (a response), "Returning", "Yield",
      "Response" (from a block), "Error" or "Using" (the older proxy's notice
      of a proxied response). */
  datatype Kind = Calling | Response | ProxiedResponse | Yield | BlockResponse | Failure | ProxyNotice | Other

  function KindOf(msg: string): Kind {
    if msg == [] then Other
    else if msg[0] == 'C' then Calling
    else if msg[0] == '`' then Response
    else if msg[0] == 'Y' then Yield
    else if msg[0] == 'E' then Failure
    else if msg[0] == 'U' then ProxyNotice
    else if msg[0] == 'R' && |msg| > 2 && msg[2] == 't' then ProxiedResponse
    else if msg[0] == 'R' then BlockResponse
    else Other
  }

  /** How many of the entries are of the given kind. */
  function Count(entries: seq<Entry>, k: Kind): (n: nat)
    ensures n <= |entries|
    decreases |entries|
  {
    if entries == [] then 0
    else Count(entries[..|entries| - 1], k) + (if KindOf(entries[|entries| - 1].msg) == k then 1 else 0)
  }

  lemma {:induction false} CountConcat(a: seq<Entry>, b: seq<Entry>, k: Kind)
    ensures Count(a + b, k) == Count(a, k) + Count(b, k)
    decreases |b|
  {
    if b == [] {
      assert a + b == a;
    } else {
      var c := a + b;
      assert c[..|c| - 1] == a + b[..|b| - 1];
      assert c[|c| - 1] == b[|b| - 1];
      CountConcat(a, b[..|b| - 1], k);
    }
  }

  lemma CountOne(e: Entry, k: Kind)
    ensures Count([e], k) == if KindOf(e.msg) == k then 1 else 0
  {
    assert [e][..0] == [];
  }
}
