/**
 * The older, standalone MarkdownLoggingProxy::Proxy: one object that traces
 * the calls it receives into a Ruby Logger whose formatter it installs
 * itself.
 *
 * Two things set it apart from the Tracer protocol. Its ignore list also
 * holds every proxy_response method, and every message of the call goes
 * through __log, which writes nothing for an ignored method. And the
 * formatter reads the heading level of the Proxy that set the Logger up:
 * that is nil until that Proxy first logs, and `'#' * nil` raises TypeError.
 *
 * LegacyTrace states __trace_method as a function of the call and of the
 * log state; LegacyProxy carries it out step by step and is proved to write
 * exactly LegacyTrace's entries and to answer its reply.
 */
module Legacy {
  import opened Wrappers
  import opened Inspector
  import opened Formatter
  import opened Sink
  import opened Backtrace
  import opened Target
  import Tracing

  // ----- the ignore list -----

  /** Array#uniq: the first occurrence of each element, in order. */
  function Uniq(s: seq<string>): seq<string>
    decreases |s|
  {
    if s == [] then []
    else
      var u := Uniq(s[..|s| - 1]);
      if s[|s| - 1] in u then u else u + [s[|s| - 1]]
  }

  predicate NoDuplicates(s: seq<string>) {
    forall i, j :: 0 <= i < j < |s| ==> s[i] != s[j]
  }

  /** Uniq keeps every element and only those, each once. */
  lemma {:induction false} UniqMembers(s: seq<string>)
    ensures forall x :: x in Uniq(s) <==> x in s
    ensures NoDuplicates(Uniq(s))
    decreases |s|
  {
    if s != [] {
      var init := s[..|s| - 1];
      UniqMembers(init);
      assert s == init + [s[|s| - 1]];
    }
  }

  /** Uniq leaves a list without duplicates as it is; in particular it is
      idempotent. */
  lemma {:induction false} UniqOfDistinct(s: seq<string>)
    requires NoDuplicates(s)
    ensures Uniq(s) == s
    decreases |s|
  {
    if s != [] {
      var init := s[..|s| - 1];
      var last := s[|s| - 1];
      assert NoDuplicates(init);
      UniqOfDistinct(init);
      assert s == init + [last];
    }
  }

  lemma UniqIdempotent(s: seq<string>)
    ensures Uniq(Uniq(s)) == Uniq(s)
  {
    UniqMembers(s);
    UniqOfDistinct(Uniq(s));
  }

  /** Proxy#initialize's @ignore: (ignore + proxy_response).uniq, so every
      proxy_response method is ignored too. */
  function EffectiveIgnore(ignore: seq<string>, proxyResponse: seq<string>): (r: seq<string>)
    ensures forall m :: m in r <==> m in ignore || m in proxyResponse
    ensures NoDuplicates(r)
  {
    UniqMembers(ignore + proxyResponse);
    Uniq(ignore + proxyResponse)
  }

  // ----- the messages -----
  //
  // Each message is a squiggly heredoc that is not chomped, so it ends in a
  // newline; an object is shown by the older __inspect_object, without its
  // identity line.

  function CallingText(meth: string, args: Value, blockGiven: bool, backtrace: Option<string>): string {
    "Calling `" + (meth + ("`\n\nArguments:\n\n" + (LegacyInspectObject(args) + ("\n\nBlock? "
      + (Tracing.YesNo(blockGiven) + ("\n" + (Tracing.OrEmpty(backtrace) + "\n")))))))
  }

  function ResponseText(meth: string, response: Value): string {
    "`" + (meth + ("` Response\n\n" + (LegacyInspectObject(response) + "\n")))
  }

  function NoticeText(meth: string, response: Value): string {
    "Using proxied response for `" + (meth + ("`\n\nObject to proxy:\n\n" + (LegacyInspectObject(response) + "\n")))
  }

  function YieldText(meth: string, args: Value): string {
    "Yield to block in `" + (meth + ("`\n\nArguments:\n\n" + (LegacyInspectObject(args) + "\n")))
  }

  function BlockResponseText(meth: string, response: Value): string {
    "Response from block in `" + (meth + ("`\n\n" + (LegacyInspectObject(response) + "\n")))
  }

  function ErrorText(meth: string, error: Value): string {
    "Error in `" + (meth + ("`\n\nType: " + (error.cls + ("\n\n" + (LegacyInspectObject(error) + "\n")))))
  }

  // ----- writing through the Logger -----

  /** Whose heading level the Logger's formatter reads: the Proxy's own,
      when it set the Logger up, or, for a Logger it was handed, that of the
      Proxy that did, as it stands during the call. */
  datatype Formatting = OwnHeading | OwnerHeading(heading: Option<nat>)

  /** A Proxy's @heading_level (nil until its first __log) and how its
      Logger formats. */
  datatype LogState = LogState(heading: Option<nat>, formatting: Formatting)

  /** The heading level the formatter reads. */
  function Shown(st: LogState): Option<nat> {
    match st.formatting
    case OwnHeading => st.heading
    case OwnerHeading(h) => h
  }

  /** What a write did: the new state, the entries written, and the
      exception it raised, if any. */
  datatype Logged = Logged(st: LogState, entries: seq<Entry>, raised: Option<Value>)

  /** The TypeError of `'#' * nil`. */
  function FormatterError(id: nat): (e: Value)
    ensures e.cls == "TypeError" && e.id == id
  {
    RaisedError("TypeError", "no implicit conversion from nil to integer", id)
  }

  /** Logger#info or Logger#error: the formatter runs before anything is
      written, so a nil heading raises TypeError and writes nothing. */
  function WriteSpec(st: LogState, severity: Severity, msg: string, id: nat): Logged {
    match Shown(st)
    case None => Logged(st, [], Some(FormatterError(id)))
    case Some(h) => Logged(st, [Entry(severity, h, msg)], None)
  }

  /** Proxy#__log: nothing for an ignored method (a nil method name, None,
      is not looked up); otherwise @heading_level is set, then the message
      is written. */
  function LogSpec(st: LogState, ignore: seq<string>, severity: Severity, meth: Option<string>, heading: nat,
                   msg: string, id: nat): Logged {
    if meth.Some? && meth.value in ignore then Logged(st, [], None)
    else WriteSpec(st.(heading := Some(heading)), severity, msg, id)
  }

  /** __log leaves an ignored method's log and heading alone and raises
      nothing; for any other method, it sets the heading and writes exactly
      one entry at the heading the formatter reads, unless that is nil. With
      its own Logger, that is the heading just set, so nothing is raised. */
  lemma LogWritesOnce(st: LogState, ignore: seq<string>, severity: Severity, meth: Option<string>, heading: nat,
                      msg: string, id: nat)
    ensures meth.Some? && meth.value in ignore ==> LogSpec(st, ignore, severity, meth, heading, msg, id) == Logged(st, [], None)
    ensures !(meth.Some? && meth.value in ignore) ==>
      LogSpec(st, ignore, severity, meth, heading, msg, id).st == st.(heading := Some(heading))
    ensures !(meth.Some? && meth.value in ignore) ==>
      (LogSpec(st, ignore, severity, meth, heading, msg, id).raised.None?
       <==> Shown(st.(heading := Some(heading))).Some?)
    ensures LogSpec(st, ignore, severity, meth, heading, msg, id).raised.None? && !(meth.Some? && meth.value in ignore) ==>
      LogSpec(st, ignore, severity, meth, heading, msg, id).entries
        == [Entry(severity, Shown(st.(heading := Some(heading))).value, msg)]
    ensures !(meth.Some? && meth.value in ignore) && st.formatting.OwnHeading? ==>
      LogSpec(st, ignore, severity, meth, heading, msg, id) == Logged(st.(heading := Some(heading)), [Entry(severity, heading, msg)], None)
  {
  }

  // ----- the block wrapper -----

  /** __proxy_block's wrapper, as the block the target sees. Its first
      Logger#info runs the formatter, so when that reads nil the wrapper
      raises TypeError before the block runs; otherwise it answers what the
      block answers (the heading does not change while it runs). */
  function Wrapped(blk: Block, shown: Option<nat>, id: nat): Block {
    (a: Value) => if shown.None? then Raises(FormatterError(id)) else blk(a)
  }

  /** No wrapper without a block. */
  function WrapperOf(blk: Option<Block>, shown: Option<nat>, id: nat): Option<Block> {
    if blk.None? then None else Some(Wrapped(blk.value, shown, id))
  }

  /** The wrapper's entries for one yield, both at the heading shown. */
  function StepEntries(meth: string, h: nat, s: Step): seq<Entry> {
    [Entry(Info, h, YieldText(meth, s.args))]
      + (if s.answer.Returns? then [Entry(Info, h, BlockResponseText(meth, s.answer.value))] else [])
  }

  function YieldEntries(meth: string, h: nat, steps: seq<Step>): seq<Entry>
    decreases |steps|
  {
    if steps == [] then []
    else YieldEntries(meth, h, steps[..|steps| - 1]) + StepEntries(meth, h, steps[|steps| - 1])
  }

  /** The yields' entries, none once the formatter reads nil. */
  function ShownEntries(meth: string, shown: Option<nat>, steps: seq<Step>): seq<Entry> {
    if shown.None? then [] else YieldEntries(meth, shown.value, steps)
  }

  function BlockEntries(meth: string, shown: Option<nat>, script: Script, blk: Option<Block>, id: nat): seq<Entry> {
    if blk.None? then [] else ShownEntries(meth, shown, Steps(script.yieldArgs, Wrapped(blk.value, shown, id)))
  }

  /** The wrapper passes the block's answer on unchanged when the heading is
      set, and raises without running the block when it is not. */
  lemma WrapperAnswers(blk: Block, shown: Option<nat>, id: nat, a: Value)
    ensures shown.Some? ==> Wrapped(blk, shown, id)(a) == blk(a)
    ensures shown.None? ==> Wrapped(blk, shown, id)(a) == Raises(FormatterError(id))
  {
  }

  // ----- __trace_method as a function of the call -----

  /** A Proxy's options. */
  datatype Config = Config(target: Value, ignore: seq<string>, proxyResponse: seq<string>, backtrace: Policy)

  /** What the call takes from the running program: the target's behaviour,
      the caller frames, which exceptions are StandardErrors, the object_id
      of a TypeError the formatter raises, and how a new Proxy renders under
      pretty_inspect. */
  datatype Env = Env(world: World, frames: seq<string>, standard: Value -> bool, freshId: nat, childView: Value)

  /** `rescue StandardError` catches the formatter's TypeError too. */
  predicate Rescues(env: Env, e: Value) {
    env.standard(e) || e == FormatterError(env.freshId)
  }

  /** The caller's Proxy as it ends the call: its @heading_level, the entries
      written, and the reply. */
  datatype LegacyResult = LegacyResult(heading: Option<nat>, entries: seq<Entry>, reply: Tracing.Reply)

  function After(entries: seq<Entry>, r: LegacyResult): LegacyResult {
    r.(entries := entries + r.entries)
  }

  /** The rescue clause: a StandardError is logged through __log and raised
      again (unless logging it raised in turn); anything else passes
      through. */
  function RescueSpec(c: Config, meth: string, st: LogState, e: Value, rescued: bool, id: nat): LegacyResult {
    if !rescued then LegacyResult(st.heading, [], Tracing.Raised(e))
    else
      var l := LogSpec(st, c.ignore, Error, Some(meth), 3, ErrorText(meth, e), id);
      LegacyResult(l.st.heading, l.entries, Tracing.Raised(if l.raised.Some? then l.raised.value else e))
  }

  /** The __log of __proxy_response: the notice, for a proxy_response
      method only. */
  function NoticeSpec(c: Config, meth: string, st: LogState, v: Value, id: nat): Logged {
    if meth !in c.proxyResponse then Logged(st, [], None)
    else LogSpec(st, c.ignore, Info, None, 3, NoticeText(meth, v), id)
  }

  /** Once the target has returned v: __proxy_response, then the response
      __log on what it returned (the response, or the new Proxy). */
  function RespondSpec(c: Config, meth: string, st: LogState, v: Value, env: Env): LegacyResult {
    var id := env.freshId;
    var proxied := meth in c.proxyResponse;
    var n := NoticeSpec(c, meth, st, v, id);
    if n.raised.Some? then After(n.entries, RescueSpec(c, meth, n.st, n.raised.value, true, id))
    else
      var r := LogSpec(n.st, c.ignore, Info, Some(meth), 3, ResponseText(meth, if proxied then env.childView else v), id);
      if r.raised.Some? then After(n.entries + r.entries, RescueSpec(c, meth, r.st, r.raised.value, true, id))
      else LegacyResult(r.st.heading, n.entries + r.entries, if proxied then Tracing.ProxyOver(v) else Tracing.Returned(v))
  }

  /** The "Calling" __log. */
  function CallLog(c: Config, meth: string, args: Value, blk: Option<Block>, st: LogState, env: Env): Logged {
    LogSpec(st, c.ignore, Info, Some(meth), 2, CallingText(meth, args, blk.Some?, DisplayBacktrace(c.backtrace, env.frames)),
            env.freshId)
  }

  /** The script the target runs for this call. */
  function Called(c: Config, meth: string, args: Value, blk: Option<Block>, env: Env): Script {
    env.world(c.target, meth, args, blk.Some?)
  }

  /** How the target answers, the block being wrapped. */
  function LegacyOutcome(c: Config, meth: string, args: Value, blk: Option<Block>, st: LogState, env: Env): Outcome {
    Run(Called(c, meth, args, blk, env), WrapperOf(blk, Shown(CallLog(c, meth, args, blk, st, env).st), env.freshId))
  }

  /** What follows the target's answer: the rescue clause for an exception,
      __proxy_response and the response __log for a value. */
  function Answered(c: Config, meth: string, st: LogState, o: Outcome, env: Env): LegacyResult {
    match o
    case Raises(e) => RescueSpec(c, meth, st, e, Rescues(env, e), env.freshId)
    case Returns(v) => RespondSpec(c, meth, st, v, env)
  }

  /** Proxy#__trace_method as a function of the call. */
  function LegacyTrace(c: Config, meth: string, args: Value, blk: Option<Block>, st: LogState, env: Env): LegacyResult {
    var call := CallLog(c, meth, args, blk, st, env);
    if call.raised.Some? then After(call.entries, RescueSpec(c, meth, call.st, call.raised.value, true, env.freshId))
    else
      var blockLog := BlockEntries(meth, Shown(call.st), Called(c, meth, args, blk, env), blk, env.freshId);
      After(call.entries + blockLog, Answered(c, meth, call.st, LegacyOutcome(c, meth, args, blk, st, env), env))
  }

  // ----- the Proxy, step by step -----

  /** The Ruby Logger that __setup_logger makes: the entries its formatter
      produced, and the Proxy whose @heading_level that formatter reads. */
  class LegacyLogger {
    var records: seq<Entry>
    var owner: LegacyProxy?

    constructor ()
      ensures records == [] && owner == null
    {
      records := [];
      owner := null;
    }

    method Add(e: Entry)
      modifies this
      ensures records == old(records) + [e] && owner == old(owner)
    {
      records := records + [e];
    }
  }

  class LegacyProxy {
    const target: Value
    const ignore: seq<string>
    const proxyResponse: seq<string>
    const backtrace: Policy
    const overwrite: seq<string>
    const logger: LegacyLogger
    var headingLevel: Option<nat>

    /** The Logger's formatter belongs to some Proxy. */
    predicate Valid()
      reads this, logger
    {
      logger.owner != null
    }

    function State(): LogState
      requires Valid()
      reads this, logger, logger.owner
    {
      LogState(headingLevel, if logger.owner == this then OwnHeading else OwnerHeading(logger.owner.headingLevel))
    }

    function Configuration(): Config {
      Config(target, ignore, proxyResponse, backtrace)
    }

    /** Proxy.new(target:, logger:, backtrace:, ignore:, proxy_response:,
        overwrite:): the ignore list is joined with the proxy_response list
        and made duplicate-free; without a logger, __setup_logger makes one
        whose formatter reads this Proxy's heading, still nil. */
    constructor (target: Value, logger: Option<LegacyLogger>, backtrace: Policy, ignore: seq<string>,
                 proxyResponse: seq<string>, overwrite: seq<string>)
      requires logger.Some? ==> logger.value.owner != null
      ensures Valid() && headingLevel == None
      ensures this.target == target && this.backtrace == backtrace && this.overwrite == overwrite
      ensures this.ignore == EffectiveIgnore(ignore, proxyResponse) && this.proxyResponse == proxyResponse
      ensures logger.Some? ==> this.logger == logger.value
      ensures logger.None? ==> fresh(this.logger) && this.logger.records == [] && this.logger.owner == this
    {
      this.target := target;
      this.backtrace := backtrace;
      this.ignore := EffectiveIgnore(ignore, proxyResponse);
      this.proxyResponse := proxyResponse;
      this.overwrite := overwrite;
      if logger.Some? {
        this.logger := logger.value;
      } else {
        var l := new LegacyLogger();
        this.logger := l;
      }
      headingLevel := None;
      new;
      if logger.None? {
        this.logger.owner := this;
      }
    }

    /** Logger#info or Logger#error, through the formatter. */
    method Write(severity: Severity, msg: string, id: nat) returns (raised: Option<Value>)
      requires Valid()
      modifies logger
      ensures Valid() && logger.owner == old(logger.owner) && State() == old(State())
      ensures logger.records == old(logger.records) + WriteSpec(old(State()), severity, msg, id).entries
      ensures raised == WriteSpec(old(State()), severity, msg, id).raised
    {
      var shown := if logger.owner == this then headingLevel else logger.owner.headingLevel;
      if shown.None? {
        return Some(FormatterError(id));
      }
      logger.Add(Entry(severity, shown.value, msg));
      raised := None;
    }

    /** Proxy#__log. */
    method Log(severity: Severity, meth: Option<string>, heading: nat, msg: string, id: nat) returns (raised: Option<Value>)
      requires Valid()
      modifies this, logger
      ensures Valid() && logger.owner == old(logger.owner)
      ensures State() == LogSpec(old(State()), ignore, severity, meth, heading, msg, id).st
      ensures logger.records == old(logger.records) + LogSpec(old(State()), ignore, severity, meth, heading, msg, id).entries
      ensures raised == LogSpec(old(State()), ignore, severity, meth, heading, msg, id).raised
    {
      if meth.Some? && meth.value in ignore {
        return None;
      }
      headingLevel := Some(heading);
      raised := Write(severity, msg, id);
    }

    /** One call of __proxy_block's wrapper: Logger#info of the "Yield"
        message, the block, Logger#info of its response; the block's answer
        is passed on. */
    method CallWrapper(meth: string, blk: Block, args: Value, id: nat, ghost shown: Option<nat>) returns (answer: Outcome)
      requires Valid() && shown == Shown(State())
      modifies logger
      ensures logger.owner == old(logger.owner)
      ensures answer == Wrapped(blk, shown, id)(args)
      ensures logger.records == old(logger.records) + ShownEntries(meth, shown, [Step(args, answer)])
    {
      var raised := Write(Info, YieldText(meth, args), id);
      if raised.Some? {
        return Raises(raised.value);
      }
      answer := blk(args);
      ghost var r1 := logger.records;
      if answer.Returns? {
        raised := Write(Info, BlockResponseText(meth, answer.value), id);
        assert raised.None?;
      }
      ShownEntriesOne(meth, shown, Step(args, answer));
      AppendAssoc(old(logger.records), r1[|old(logger.records)|..], logger.records[|r1|..]);
    }

    /** The target running with the wrapper: it yields each of its argument
        arrays until the wrapper raises, then ends as its script says. */
    method YieldEach(meth: string, blk: Block, script: Script, id: nat) returns (outcome: Outcome)
      requires Valid()
      modifies logger
      ensures Valid() && logger.owner == old(logger.owner) && State() == old(State())
      ensures outcome == Run(script, Some(Wrapped(blk, Shown(old(State())), id)))
      ensures logger.records == old(logger.records) + BlockEntries(meth, Shown(old(State())), script, Some(blk), id)
    {
      outcome := YieldLoop(meth, blk, script, id, Shown(State()));
    }

    /** YieldEach's loop, for the heading the formatter shows throughout. */
    method YieldLoop(meth: string, blk: Block, script: Script, id: nat, ghost shown: Option<nat>) returns (outcome: Outcome)
      requires Valid() && shown == Shown(State())
      modifies logger
      ensures logger.owner == old(logger.owner)
      ensures outcome == Run(script, Some(Wrapped(blk, shown, id)))
      ensures logger.records == old(logger.records) + ShownEntries(meth, shown, Steps(script.yieldArgs, Wrapped(blk, shown, id)))
    {
      ghost var r0 := logger.records;
      ghost var w := Wrapped(blk, shown, id);
      var ya := script.yieldArgs;
      var answers: seq<Value> := [];
      var i := 0;
      while i < |ya|
        invariant 0 <= i <= |ya|
        invariant Valid() && shown == Shown(State()) && logger.owner == old(logger.owner)
        invariant !BlockRaised(StepsUpTo(ya, i, w))
        invariant answers == Answers(StepsUpTo(ya, i, w))
        invariant logger.records == r0 + ShownEntries(meth, shown, StepsUpTo(ya, i, w))
      {
        ghost var before := StepsUpTo(ya, i, w);
        var answer := CallWrapper(meth, blk, ya[i], id, shown);
        ghost var step := Step(ya[i], answer);
        assert StepsUpTo(ya, i + 1, w) == before + [step];
        ShownEntriesAppend(meth, shown, before, step);
        AppendAssoc(r0, ShownEntries(meth, shown, before), ShownEntries(meth, shown, [step]));
        if answer.Raises? {
          StepsStopAtRaise(ya, i + 1, |ya|, w);
          assert Steps(ya, w) == before + [step];
          return answer;
        }
        Tracing.AnswersAppend(before, step);
        answers := answers + [answer.value];
        i := i + 1;
      }
      assert Steps(ya, w) == StepsUpTo(ya, i, w);
      outcome := script.finish(answers);
    }

    /** target.public_send(meth, *args, &__proxy_block(meth, blk)). */
    method CallTarget(meth: string, script: Script, blk: Option<Block>, id: nat) returns (outcome: Outcome)
      requires Valid()
      modifies logger
      ensures Valid() && logger.owner == old(logger.owner) && State() == old(State())
      ensures outcome == Run(script, WrapperOf(blk, Shown(old(State())), id))
      ensures logger.records == old(logger.records) + BlockEntries(meth, Shown(old(State())), script, blk, id)
    {
      if blk.None? {
        outcome := script.finish([]);
      } else {
        outcome := YieldEach(meth, blk.value, script, id);
      }
    }

    /** The rescue clause of __trace_method. */
    method Rescue(meth: string, e: Value, rescued: bool, id: nat) returns (reply: Tracing.Reply)
      requires Valid()
      modifies this, logger
      ensures Valid() && logger.owner == old(logger.owner) && State() == old(State()).(heading := headingLevel)
      ensures headingLevel == RescueSpec(Configuration(), meth, old(State()), e, rescued, id).heading
      ensures logger.records == old(logger.records) + RescueSpec(Configuration(), meth, old(State()), e, rescued, id).entries
      ensures reply == RescueSpec(Configuration(), meth, old(State()), e, rescued, id).reply
    {
      if !rescued {
        return Tracing.Raised(e);
      }
      var raised := Log(Error, Some(meth), 3, ErrorText(meth, e), id);
      reply := Tracing.Raised(if raised.Some? then raised.value else e);
    }

    /** __proxy_response and the response __log once the target has returned
        v. A proxied response comes back as a new Proxy over it that shares
        the Logger, with the default options. */
    method Respond(meth: string, v: Value, env: Env) returns (reply: Tracing.Reply, child: LegacyProxy?)
      requires Valid()
      modifies this, logger
      ensures Valid() && logger.owner == old(logger.owner) && State() == old(State()).(heading := headingLevel)
      ensures headingLevel == RespondSpec(Configuration(), meth, old(State()), v, env).heading
      ensures logger.records == old(logger.records) + RespondSpec(Configuration(), meth, old(State()), v, env).entries
      ensures reply == RespondSpec(Configuration(), meth, old(State()), v, env).reply
      ensures child != null <==> reply.ProxyOver?
      ensures child != null ==> fresh(child) && child.Valid() && child.target == v && child.logger == logger
      ensures child != null ==> child.ignore == [] && child.proxyResponse == [] && child.backtrace == ProjectsPattern()
      ensures child != null ==> child.State() == LogState(None, OwnerHeading(logger.owner.headingLevel))
    {
      var id := env.freshId;
      var proxied := meth in proxyResponse;
      ghost var r0 := logger.records;
      ghost var st0 := State();
      child := null;
      var raised: Option<Value> := None;
      if proxied {
        raised := Log(Info, None, 3, NoticeText(meth, v), id);
        if raised.Some? {
          reply := Rescue(meth, raised.value, true, id);
          return;
        }
        child := new LegacyProxy(v, Some(logger), ProjectsPattern(), [], [], []);
      }
      ghost var n := NoticeSpec(Configuration(), meth, st0, v, id);
      assert logger.records == r0 + n.entries;
      raised := Log(Info, Some(meth), 3, ResponseText(meth, if proxied then env.childView else v), id);
      if raised.Some? {
        child := null;
        reply := Rescue(meth, raised.value, true, id);
        AppendAssoc(r0, n.entries, []);
        return;
      }
      reply := if proxied then Tracing.ProxyOver(v) else Tracing.Returned(v);
    }

    /** Proxy#__trace_method. */
    method TraceMethod(meth: string, args: Value, blk: Option<Block>, env: Env) returns (reply: Tracing.Reply, child: LegacyProxy?)
      requires Valid()
      modifies this, logger
      ensures Valid() && logger.owner == old(logger.owner)
      ensures headingLevel == LegacyTrace(Configuration(), meth, args, blk, old(State()), env).heading
      ensures logger.records == old(logger.records) + LegacyTrace(Configuration(), meth, args, blk, old(State()), env).entries
      ensures reply == LegacyTrace(Configuration(), meth, args, blk, old(State()), env).reply
      ensures child != null <==> reply.ProxyOver?
      ensures child != null ==> fresh(child) && child.Valid() && child.target == reply.value && child.logger == logger
      ensures child != null ==> child.ignore == [] && child.proxyResponse == [] && child.backtrace == ProjectsPattern()
      ensures child != null ==> child.State() == LogState(None, OwnerHeading(logger.owner.headingLevel))
    {
      ghost var c := Configuration();
      ghost var st0 := State();
      ghost var r0 := logger.records;
      var id := env.freshId;
      var raised := Log(Info, Some(meth), 2, CallingText(meth, args, blk.Some?, DisplayBacktrace(backtrace, env.frames)), id);
      if raised.Some? {
        reply := Rescue(meth, raised.value, true, id);
        child := null;
        return;
      }
      ghost var call := CallLog(c, meth, args, blk, st0, env);
      ghost var r1 := logger.records;
      var script := env.world(target, meth, args, blk.Some?);
      var outcome := CallTarget(meth, script, blk, id);
      assert outcome == LegacyOutcome(c, meth, args, blk, st0, env);
      ghost var part2 := BlockEntries(meth, Shown(call.st), script, blk, id);
      ghost var answered := Answered(c, meth, call.st, outcome, env);
      reply, child := Answer(meth, outcome, env);
      AppendAssoc(r0, call.entries, part2);
      AppendAssoc(r0, call.entries + part2, answered.entries);
    }

    /** The rest of __trace_method once the target has answered. */
    method Answer(meth: string, outcome: Outcome, env: Env) returns (reply: Tracing.Reply, child: LegacyProxy?)
      requires Valid()
      modifies this, logger
      ensures Valid() && logger.owner == old(logger.owner)
      ensures headingLevel == Answered(Configuration(), meth, old(State()), outcome, env).heading
      ensures logger.records == old(logger.records) + Answered(Configuration(), meth, old(State()), outcome, env).entries
      ensures reply == Answered(Configuration(), meth, old(State()), outcome, env).reply
      ensures child != null <==> reply.ProxyOver?
      ensures child != null ==> fresh(child) && child.Valid() && child.target == reply.value && child.logger == logger
      ensures child != null ==> child.ignore == [] && child.proxyResponse == [] && child.backtrace == ProjectsPattern()
      ensures child != null ==> child.State() == LogState(None, OwnerHeading(logger.owner.headingLevel))
    {
      if outcome.Raises? {
        reply := Rescue(meth, outcome.error, Rescues(env, outcome.error), env.freshId);
        child := null;
      } else {
        reply, child := Respond(meth, outcome.value, env);
      }
    }

    /** Proxy#method_missing: the call is traced with the same method name,
        arguments and block. */
    method MethodMissing(meth: string, args: Value, blk: Option<Block>, env: Env) returns (reply: Tracing.Reply, child: LegacyProxy?)
      requires Valid()
      modifies this, logger
      ensures Valid() && logger.owner == old(logger.owner)
      ensures headingLevel == LegacyTrace(Configuration(), meth, args, blk, old(State()), env).heading
      ensures logger.records == old(logger.records) + LegacyTrace(Configuration(), meth, args, blk, old(State()), env).entries
      ensures reply == LegacyTrace(Configuration(), meth, args, blk, old(State()), env).reply
      ensures child != null <==> reply.ProxyOver?
      ensures child != null ==> fresh(child) && child.Valid() && child.target == reply.value && child.logger == logger
      ensures child != null ==> child.State() == LogState(None, OwnerHeading(logger.owner.headingLevel))
    {
      reply, child := TraceMethod(meth, args, blk, env);
    }
  }

  // ----- helper lemmas for the step-by-step proof -----

  lemma ShownEntriesOne(meth: string, shown: Option<nat>, s: Step)
    ensures ShownEntries(meth, shown, [s]) == if shown.None? then [] else StepEntries(meth, shown.value, s)
  {
    if shown.Some? {
      assert [s][..0] == [];
      assert YieldEntries(meth, shown.value, [s]) == [] + StepEntries(meth, shown.value, s);
    }
  }

  lemma ShownEntriesAppend(meth: string, shown: Option<nat>, steps: seq<Step>, s: Step)
    ensures ShownEntries(meth, shown, steps + [s]) == ShownEntries(meth, shown, steps) + ShownEntries(meth, shown, [s])
  {
    ShownEntriesOne(meth, shown, s);
    if shown.Some? {
      var h := shown.value;
      assert (steps + [s])[..|steps|] == steps;
      assert YieldEntries(meth, h, steps + [s]) == YieldEntries(meth, h, steps) + StepEntries(meth, h, s);
    }
  }

  // ----- what the older Proxy logs -----

  lemma CallingKind(meth: string, args: Value, blockGiven: bool, backtrace: Option<string>)
    ensures KindOf(CallingText(meth, args, blockGiven, backtrace)) == Calling
  {
  }

  lemma ResponseKind(meth: string, v: Value)
    ensures KindOf(ResponseText(meth, v)) == Response
  {
  }

  lemma NoticeKind(meth: string, v: Value)
    ensures KindOf(NoticeText(meth, v)) == ProxyNotice
  {
  }

  lemma YieldKind(meth: string, args: Value)
    ensures KindOf(YieldText(meth, args)) == Yield
  {
  }

  lemma BlockResponseKind(meth: string, v: Value)
    ensures KindOf(BlockResponseText(meth, v)) == BlockResponse
  {
  }

  lemma ErrorKind(meth: string, e: Value)
    ensures KindOf(ErrorText(meth, e)) == Failure
  {
  }

  /** Every entry is at heading h. */
  predicate AllAt(entries: seq<Entry>, h: nat) {
    forall i :: 0 <= i < |entries| ==> entries[i].heading == h
  }

  lemma AllAtConcat(a: seq<Entry>, b: seq<Entry>, h: nat)
    requires AllAt(a, h) && AllAt(b, h)
    ensures AllAt(a + b, h)
  {
    forall i | 0 <= i < |a + b|
      ensures (a + b)[i].heading == h
    {
      if i >= |a| {
        assert (a + b)[i] == b[i - |a|];
      }
    }
  }

  /** The wrapper writes only "Yield" and "Response from block" entries, all
      at the heading it was given. */
  lemma {:induction false} YieldEntriesShape(meth: string, h: nat, steps: seq<Step>)
    ensures AllAt(YieldEntries(meth, h, steps), h)
    ensures Tracing.OnlyKinds(YieldEntries(meth, h, steps), {Yield, BlockResponse})
    decreases |steps|
  {
    if steps != [] {
      var init, last := steps[..|steps| - 1], steps[|steps| - 1];
      YieldEntriesShape(meth, h, init);
      YieldKind(meth, last.args);
      if last.answer.Returns? {
        BlockResponseKind(meth, last.answer.value);
      }
      AllAtConcat(YieldEntries(meth, h, init), StepEntries(meth, h, last), h);
    }
  }

  lemma BlockEntriesShape(meth: string, shown: Option<nat>, script: Script, blk: Option<Block>, id: nat)
    ensures shown.None? ==> BlockEntries(meth, shown, script, blk, id) == []
    ensures shown.Some? ==> AllAt(BlockEntries(meth, shown, script, blk, id), shown.value)
    ensures Tracing.OnlyKinds(BlockEntries(meth, shown, script, blk, id), {Yield, BlockResponse})
  {
    if blk.Some? && shown.Some? {
      YieldEntriesShape(meth, shown.value, Steps(script.yieldArgs, Wrapped(blk.value, shown, id)));
    }
  }

  /** The rescue writes at most the "Error" entry, at the heading the
      formatter reads once __log has set 3. */
  lemma RescueShape(c: Config, meth: string, st: LogState, e: Value, rescued: bool, id: nat)
    ensures Tracing.OnlyKinds(RescueSpec(c, meth, st, e, rescued, id).entries, {Failure})
    ensures Shown(st.(heading := Some(3))).Some? ==>
      AllAt(RescueSpec(c, meth, st, e, rescued, id).entries, Shown(st.(heading := Some(3))).value)
  {
    ErrorKind(meth, e);
  }

  /** The notice is written only for a proxy_response method, at the
      heading the formatter reads once __log has set 3, and raises exactly
      when that is nil. */
  lemma NoticeShape(c: Config, meth: string, st: LogState, v: Value, id: nat)
    ensures meth !in c.proxyResponse ==> NoticeSpec(c, meth, st, v, id) == Logged(st, [], None)
    ensures meth in c.proxyResponse && Shown(st.(heading := Some(3))).None? ==>
      NoticeSpec(c, meth, st, v, id) == Logged(st.(heading := Some(3)), [], Some(FormatterError(id)))
    ensures meth in c.proxyResponse && Shown(st.(heading := Some(3))).Some? ==>
      NoticeSpec(c, meth, st, v, id)
        == Logged(st.(heading := Some(3)), [Entry(Info, Shown(st.(heading := Some(3))).value, NoticeText(meth, v))], None)
    ensures Tracing.OnlyKinds(NoticeSpec(c, meth, st, v, id).entries, {ProxyNotice})
  {
    NoticeKind(meth, v);
  }

  /** After the target returns, at most the notice, the response and an
      "Error" entry, all at the heading the formatter reads once __log has
      set 3, and no TypeError when that is set. */
  lemma RespondShape(c: Config, meth: string, st: LogState, v: Value, env: Env)
    ensures Tracing.OnlyKinds(RespondSpec(c, meth, st, v, env).entries, {ProxyNotice, Response, Failure})
    ensures Shown(st.(heading := Some(3))).Some? ==>
      AllAt(RespondSpec(c, meth, st, v, env).entries, Shown(st.(heading := Some(3))).value)
    ensures Shown(st.(heading := Some(3))).Some? ==>
      RespondSpec(c, meth, st, v, env).reply == if meth in c.proxyResponse then Tracing.ProxyOver(v) else Tracing.Returned(v)
  {
    var id := env.freshId;
    var st3 := st.(heading := Some(3));
    var n := NoticeSpec(c, meth, st, v, id);
    NoticeShape(c, meth, st, v, id);
    if n.raised.Some? {
      RescueShape(c, meth, n.st, n.raised.value, true, id);
      assert n.entries == [];
    } else {
      var shownV := if meth in c.proxyResponse then env.childView else v;
      var r := LogSpec(n.st, c.ignore, Info, Some(meth), 3, ResponseText(meth, shownV), id);
      LogWritesOnce(n.st, c.ignore, Info, Some(meth), 3, ResponseText(meth, shownV), id);
      ResponseKind(meth, shownV);
      assert n.st.(heading := Some(3)) == st3 || n.st == st;
      assert Shown(n.st.(heading := Some(3))) == Shown(st3);
      assert Tracing.OnlyKinds(r.entries, {Response});
      if r.raised.Some? {
        RescueShape(c, meth, r.st, r.raised.value, true, id);
        assert Shown(r.st.(heading := Some(3))) == Shown(st3);
        assert r.entries == [];
        assert RespondSpec(c, meth, st, v, env).entries == n.entries + RescueSpec(c, meth, r.st, r.raised.value, true, id).entries;
        AllKindsConcat(n.entries, RescueSpec(c, meth, r.st, r.raised.value, true, id).entries, {ProxyNotice, Response, Failure});
      } else {
        assert RespondSpec(c, meth, st, v, env).entries == n.entries + r.entries;
        AllKindsConcat(n.entries, r.entries, {ProxyNotice, Response, Failure});
        if Shown(st3).Some? {
          AllAtConcat(n.entries, r.entries, Shown(st3).value);
        }
      }
    }
  }

  lemma AllKindsConcat(a: seq<Entry>, b: seq<Entry>, ks: set<Kind>)
    requires Tracing.OnlyKinds(a, ks) && Tracing.OnlyKinds(b, ks)
    ensures Tracing.OnlyKinds(a + b, ks)
  {
    forall i | 0 <= i < |a + b|
      ensures KindOf((a + b)[i].msg) in ks
    {
      if i >= |a| {
        assert (a + b)[i] == b[i - |a|];
      }
    }
  }

  /** A method on the ignore list writes no "Calling", response or "Error"
      entry: only the wrapper's entries and, for a proxy_response method,
      the notice (its __log passes no method name, so the ignore list does
      not stop it). The target's exception is raised again as it is; a
      Logger whose formatter reads nil makes the notice raise TypeError. */
  lemma IgnoredTrace(c: Config, meth: string, args: Value, blk: Option<Block>, st: LogState, env: Env)
    requires meth in c.ignore
    ensures LegacyOutcome(c, meth, args, blk, st, env) == Run(Called(c, meth, args, blk, env), WrapperOf(blk, Shown(st), env.freshId))
    ensures LegacyOutcome(c, meth, args, blk, st, env).Raises? ==>
      LegacyTrace(c, meth, args, blk, st, env)
        == LegacyResult(st.heading, BlockEntries(meth, Shown(st), Called(c, meth, args, blk, env), blk, env.freshId),
                        Tracing.Raised(LegacyOutcome(c, meth, args, blk, st, env).error))
    ensures LegacyOutcome(c, meth, args, blk, st, env).Returns? && meth !in c.proxyResponse ==>
      LegacyTrace(c, meth, args, blk, st, env)
        == LegacyResult(st.heading, BlockEntries(meth, Shown(st), Called(c, meth, args, blk, env), blk, env.freshId),
                        Tracing.Returned(LegacyOutcome(c, meth, args, blk, st, env).value))
    ensures LegacyOutcome(c, meth, args, blk, st, env).Returns? && meth in c.proxyResponse ==>
      LegacyTrace(c, meth, args, blk, st, env)
        == var v := LegacyOutcome(c, meth, args, blk, st, env).value;
           var blockLog := BlockEntries(meth, Shown(st), Called(c, meth, args, blk, env), blk, env.freshId);
           match Shown(st.(heading := Some(3)))
           case None => LegacyResult(Some(3), blockLog, Tracing.Raised(FormatterError(env.freshId)))
           case Some(h) => LegacyResult(Some(3), blockLog + [Entry(Info, h, NoticeText(meth, v))], Tracing.ProxyOver(v))
  {
    var id := env.freshId;
    var call := CallLog(c, meth, args, blk, st, env);
    assert call == Logged(st, [], None);
    var o := LegacyOutcome(c, meth, args, blk, st, env);
    var blockLog := BlockEntries(meth, Shown(st), Called(c, meth, args, blk, env), blk, id);
    assert call.entries + blockLog == blockLog;
    if o.Raises? {
      assert RescueSpec(c, meth, st, o.error, Rescues(env, o.error), id) == LegacyResult(st.heading, [], Tracing.Raised(o.error));
    } else {
      var v := o.value;
      NoticeShape(c, meth, st, v, id);
      var n := NoticeSpec(c, meth, st, v, id);
      if meth in c.proxyResponse {
        var st3 := st.(heading := Some(3));
        if n.raised.Some? {
          assert RescueSpec(c, meth, st3, n.raised.value, true, id) == LegacyResult(Some(3), [], Tracing.Raised(FormatterError(id)));
          assert RespondSpec(c, meth, st, v, env) == LegacyResult(Some(3), [], Tracing.Raised(FormatterError(id)));
        } else {
          assert LogSpec(st3, c.ignore, Info, Some(meth), 3, ResponseText(meth, env.childView), id) == Logged(st3, [], None);
          assert RespondSpec(c, meth, st, v, env) == LegacyResult(Some(3), n.entries, Tracing.ProxyOver(v));
        }
      } else {
        assert LogSpec(st, c.ignore, Info, Some(meth), 3, ResponseText(meth, v), id) == Logged(st, [], None);
        assert RespondSpec(c, meth, st, v, env) == LegacyResult(st.heading, [], Tracing.Returned(v));
      }
    }
  }

  lemma IgnoredSilent(c: Config, meth: string, args: Value, blk: Option<Block>, st: LogState, env: Env)
    requires meth in c.ignore
    ensures Count(LegacyTrace(c, meth, args, blk, st, env).entries, Calling) == 0
    ensures Count(LegacyTrace(c, meth, args, blk, st, env).entries, Response) == 0
    ensures Count(LegacyTrace(c, meth, args, blk, st, env).entries, Failure) == 0
    ensures Count(LegacyTrace(c, meth, args, blk, st, env).entries, ProxyNotice) <= 1
  {
    var blockLog := BlockEntries(meth, Shown(st), Called(c, meth, args, blk, env), blk, env.freshId);
    var entries := LegacyTrace(c, meth, args, blk, st, env).entries;
    var o := LegacyOutcome(c, meth, args, blk, st, env);
    IgnoredTrace(c, meth, args, blk, st, env);
    BlockEntriesShape(meth, Shown(st), Called(c, meth, args, blk, env), blk, env.freshId);
    if o.Returns? && meth in c.proxyResponse && Shown(st.(heading := Some(3))).Some? {
      var notice := Entry(Info, Shown(st.(heading := Some(3))).value, NoticeText(meth, o.value));
      assert entries == blockLog + [notice];
      NoticeKind(meth, o.value);
      NoticeCounts(blockLog, [notice]);
    } else {
      assert entries == blockLog + [];
      NoticeCounts(blockLog, []);
    }
  }

  lemma NoticeCounts(blockLog: seq<Entry>, rest: seq<Entry>)
    requires Tracing.OnlyKinds(blockLog, {Yield, BlockResponse})
    requires Tracing.OnlyKinds(rest, {ProxyNotice}) && |rest| <= 1
    ensures Count(blockLog + rest, Calling) == 0 && Count(blockLog + rest, Response) == 0
    ensures Count(blockLog + rest, Failure) == 0 && Count(blockLog + rest, ProxyNotice) <= 1
  {
    forall k | k in {Calling, Response, Failure, ProxyNotice}
      ensures Count(blockLog + rest, k) == Count(rest, k)
    {
      CountConcat(blockLog, rest, k);
      Tracing.CountOutside(blockLog, {Yield, BlockResponse}, k);
    }
    forall k | k in {Calling, Response, Failure}
      ensures Count(rest, k) == 0
    {
      Tracing.CountOutside(rest, {ProxyNotice}, k);
    }
  }

  /** A Proxy that set its Logger up and has not logged yet (heading nil)
      is called with an ignored method and a block the target yields to:
      the call's __log is skipped, so the wrapper's first Logger#info
      formats with a nil heading and raises TypeError before the block
      runs. The rescue clause catches it, logs nothing for the ignored
      method, and raises it to the caller; nothing is written. */
  lemma IgnoredBlockRaisesTypeError(c: Config, meth: string, args: Value, blk: Option<Block>, env: Env)
    requires meth in c.ignore && blk.Some?
    requires Called(c, meth, args, blk, env).yieldArgs != []
    ensures LegacyTrace(c, meth, args, blk, LogState(None, OwnHeading), env)
      == LegacyResult(None, [], Tracing.Raised(FormatterError(env.freshId)))
  {
    var st := LogState(None, OwnHeading);
    var script := Called(c, meth, args, blk, env);
    var ya := script.yieldArgs;
    var w := Wrapped(blk.value, None, env.freshId);
    IgnoredTrace(c, meth, args, blk, st, env);
    WrapperAnswers(blk.value, None, env.freshId, ya[0]);
    assert StepsUpTo(ya, 0, w) == [];
    assert StepsUpTo(ya, 1, w) == [Step(ya[0], Raises(FormatterError(env.freshId)))];
    StepsStopAtRaise(ya, 1, |ya|, w);
    assert LegacyOutcome(c, meth, args, blk, st, env) == Raises(FormatterError(env.freshId));
  }

  /** With its own Logger, a call that is not ignored is logged first, as
      "Calling" at heading 2; from then on the formatter reads a heading, so
      the block sees the wrapper at heading 2 and no TypeError can arise. */
  lemma OwnLoggerCall(c: Config, meth: string, args: Value, blk: Option<Block>, st: LogState, env: Env)
    requires st.formatting.OwnHeading? && meth !in c.ignore
    ensures LegacyOutcome(c, meth, args, blk, st, env) == Run(Called(c, meth, args, blk, env), WrapperOf(blk, Some(2), env.freshId))
    ensures LegacyTrace(c, meth, args, blk, st, env).entries != []
      && LegacyTrace(c, meth, args, blk, st, env).entries[0]
         == Entry(Info, 2, CallingText(meth, args, blk.Some?, DisplayBacktrace(c.backtrace, env.frames)))
    ensures Count(LegacyTrace(c, meth, args, blk, st, env).entries, Calling) == 1
  {
    var call := CallLog(c, meth, args, blk, st, env);
    var st2 := st.(heading := Some(2));
    assert call == Logged(st2, [Entry(Info, 2, CallingText(meth, args, blk.Some?, DisplayBacktrace(c.backtrace, env.frames)))], None);
    var blockLog := BlockEntries(meth, Some(2), Called(c, meth, args, blk, env), blk, env.freshId);
    BlockEntriesShape(meth, Some(2), Called(c, meth, args, blk, env), blk, env.freshId);
    var o := LegacyOutcome(c, meth, args, blk, st, env);
    var answered := Answered(c, meth, st2, o, env);
    if o.Raises? {
      RescueShape(c, meth, st2, o.error, Rescues(env, o.error), env.freshId);
    } else {
      RespondShape(c, meth, st2, o.value, env);
    }
    assert LegacyTrace(c, meth, args, blk, st, env) == After(call.entries + blockLog, answered);
    CallingKind(meth, args, blk.Some?, DisplayBacktrace(c.backtrace, env.frames));
    CallingCounts(call.entries[0], blockLog, answered.entries);
  }

  lemma CallingCounts(call: Entry, blockLog: seq<Entry>, rest: seq<Entry>)
    requires KindOf(call.msg) == Calling
    requires Tracing.OnlyKinds(blockLog, {Yield, BlockResponse})
    requires Tracing.OnlyKinds(rest, {ProxyNotice, Response, Failure})
    ensures ([call] + blockLog + rest)[0] == call
    ensures Count([call] + blockLog + rest, Calling) == 1
  {
    CountOne(call, Calling);
    CountConcat([call] + blockLog, rest, Calling);
    CountConcat([call], blockLog, Calling);
    Tracing.CountOutside(blockLog, {Yield, BlockResponse}, Calling);
    Tracing.CountOutside(rest, {ProxyNotice, Response, Failure}, Calling);
  }

  /** With its own Logger, the response is logged at heading 3, after the
      notice for a proxy_response method, and the reply follows the target. */
  lemma OwnLoggerRespond(c: Config, meth: string, st: LogState, v: Value, env: Env)
    requires st.formatting.OwnHeading? && meth !in c.ignore
    ensures RespondSpec(c, meth, st, v, env)
      == LegacyResult(Some(3),
                      (if meth in c.proxyResponse then [Entry(Info, 3, NoticeText(meth, v))] else [])
                        + [Entry(Info, 3, ResponseText(meth, if meth in c.proxyResponse then env.childView else v))],
                      if meth in c.proxyResponse then Tracing.ProxyOver(v) else Tracing.Returned(v))
  {
    var id := env.freshId;
    var st3 := st.(heading := Some(3));
    NoticeShape(c, meth, st, v, id);
    var n := NoticeSpec(c, meth, st, v, id);
    var shownV := if meth in c.proxyResponse then env.childView else v;
    assert n.st.(heading := Some(3)) == st3;
    LogWritesOnce(n.st, c.ignore, Info, Some(meth), 3, ResponseText(meth, shownV), id);
  }

  /** With its own Logger, a call the target answers ends with the response
      entry at heading 3, and the reply is the target's answer, or a new
      Proxy over it for a proxy_response method. */
  lemma OwnLoggerReturn(c: Config, meth: string, args: Value, blk: Option<Block>, st: LogState, env: Env)
    requires st.formatting.OwnHeading? && meth !in c.ignore
    requires LegacyOutcome(c, meth, args, blk, st, env).Returns?
    ensures LegacyTrace(c, meth, args, blk, st, env).reply
      == var v := LegacyOutcome(c, meth, args, blk, st, env).value;
         if meth in c.proxyResponse then Tracing.ProxyOver(v) else Tracing.Returned(v)
    ensures LegacyTrace(c, meth, args, blk, st, env).heading == Some(3)
    ensures LegacyTrace(c, meth, args, blk, st, env).entries != []
      && LegacyTrace(c, meth, args, blk, st, env).entries[|LegacyTrace(c, meth, args, blk, st, env).entries| - 1]
         == var v := LegacyOutcome(c, meth, args, blk, st, env).value;
            Entry(Info, 3, ResponseText(meth, if meth in c.proxyResponse then env.childView else v))
  {
    var call := CallLog(c, meth, args, blk, st, env);
    var st2 := st.(heading := Some(2));
    assert call.st == st2 && call.raised.None?;
    var v := LegacyOutcome(c, meth, args, blk, st, env).value;
    var blockLog := BlockEntries(meth, Some(2), Called(c, meth, args, blk, env), blk, env.freshId);
    OwnLoggerRespond(c, meth, st2, v, env);
    var answered := RespondSpec(c, meth, st2, v, env);
    assert LegacyTrace(c, meth, args, blk, st, env) == After(call.entries + blockLog, answered);
  }

  /** With its own Logger, an exception from the target (or its block) is
      raised again unchanged; a StandardError is first logged as the last
      entry, "Error" at heading 3, and anything else leaves no "Error"
      entry and the heading at 2. */
  lemma OwnLoggerError(c: Config, meth: string, args: Value, blk: Option<Block>, st: LogState, env: Env)
    requires st.formatting.OwnHeading? && meth !in c.ignore
    requires LegacyOutcome(c, meth, args, blk, st, env).Raises?
    ensures LegacyTrace(c, meth, args, blk, st, env).reply == Tracing.Raised(LegacyOutcome(c, meth, args, blk, st, env).error)
    ensures Rescues(env, LegacyOutcome(c, meth, args, blk, st, env).error) ==>
      LegacyTrace(c, meth, args, blk, st, env).heading == Some(3)
      && LegacyTrace(c, meth, args, blk, st, env).entries != []
      && LegacyTrace(c, meth, args, blk, st, env).entries[|LegacyTrace(c, meth, args, blk, st, env).entries| - 1]
         == Entry(Error, 3, ErrorText(meth, LegacyOutcome(c, meth, args, blk, st, env).error))
    ensures !Rescues(env, LegacyOutcome(c, meth, args, blk, st, env).error) ==>
      LegacyTrace(c, meth, args, blk, st, env).heading == Some(2)
      && Count(LegacyTrace(c, meth, args, blk, st, env).entries, Failure) == 0
  {
    var call := CallLog(c, meth, args, blk, st, env);
    var st2 := st.(heading := Some(2));
    assert call.st == st2 && call.raised.None?;
    var e := LegacyOutcome(c, meth, args, blk, st, env).error;
    var blockLog := BlockEntries(meth, Some(2), Called(c, meth, args, blk, env), blk, env.freshId);
    var answered := RescueSpec(c, meth, st2, e, Rescues(env, e), env.freshId);
    assert LegacyTrace(c, meth, args, blk, st, env) == After(call.entries + blockLog, answered);
    if !Rescues(env, e) {
      BlockEntriesShape(meth, Some(2), Called(c, meth, args, blk, env), blk, env.freshId);
      CallingKind(meth, args, blk.Some?, DisplayBacktrace(c.backtrace, env.frames));
      assert Tracing.OnlyKinds(call.entries, {Calling});
      assert call.entries + blockLog + answered.entries == call.entries + blockLog;
      Tracing.CountFinishPhases(call.entries, blockLog, [], Failure);
      assert call.entries + blockLog + [] == call.entries + blockLog;
    }
  }

  /** A Proxy over a proxied response shares the Logger of the Proxy that
      set it up, whose formatter reads that Proxy's heading level, however
      many proxies lie between them. Once that level is set (to h),
      every entry of a call on the new Proxy is written at h, whatever
      heading the call's own __log sets, the block is wrapped at h, and the
      reply follows the target: no TypeError arises. */
  lemma OwnerHeadingThroughout(c: Config, meth: string, args: Value, blk: Option<Block>, h: nat, heading: Option<nat>, env: Env)
    ensures AllAt(LegacyTrace(c, meth, args, blk, LogState(heading, OwnerHeading(Some(h))), env).entries, h)
    ensures LegacyOutcome(c, meth, args, blk, LogState(heading, OwnerHeading(Some(h))), env)
      == Run(Called(c, meth, args, blk, env), WrapperOf(blk, Some(h), env.freshId))
    ensures LegacyOutcome(c, meth, args, blk, LogState(heading, OwnerHeading(Some(h))), env).Raises? ==>
      LegacyTrace(c, meth, args, blk, LogState(heading, OwnerHeading(Some(h))), env).reply
        == Tracing.Raised(LegacyOutcome(c, meth, args, blk, LogState(heading, OwnerHeading(Some(h))), env).error)
    ensures LegacyOutcome(c, meth, args, blk, LogState(heading, OwnerHeading(Some(h))), env).Returns? ==>
      LegacyTrace(c, meth, args, blk, LogState(heading, OwnerHeading(Some(h))), env).reply
        == var v := LegacyOutcome(c, meth, args, blk, LogState(heading, OwnerHeading(Some(h))), env).value;
           if meth in c.proxyResponse then Tracing.ProxyOver(v) else Tracing.Returned(v)
  {
    var st := LogState(heading, OwnerHeading(Some(h)));
    var call := CallLog(c, meth, args, blk, st, env);
    assert call.raised.None? && Shown(call.st) == Some(h) && call.st.formatting == st.formatting;
    assert AllAt(call.entries, h);
    var o := LegacyOutcome(c, meth, args, blk, st, env);
    var blockLog := BlockEntries(meth, Some(h), Called(c, meth, args, blk, env), blk, env.freshId);
    BlockEntriesShape(meth, Some(h), Called(c, meth, args, blk, env), blk, env.freshId);
    var answered := Answered(c, meth, call.st, o, env);
    assert LegacyTrace(c, meth, args, blk, st, env) == After(call.entries + blockLog, answered);
    assert Shown(call.st.(heading := Some(3))) == Some(h);
    if o.Raises? {
      RescueShape(c, meth, call.st, o.error, Rescues(env, o.error), env.freshId);
    } else {
      RespondShape(c, meth, call.st, o.value, env);
    }
    AllAtConcat(call.entries, blockLog, h);
    AllAtConcat(call.entries + blockLog, answered.entries, h);
  }
}
