/**
 * The tracing protocol of MarkdownLoggingProxy (Tracer#trace and the Proxy
 * that routes calls to it): for one proxied call, the entries written to the
 * shared MarkdownLogger, in order, and what the call answers.
 *
 * TraceSpec states the protocol as a function of the call; Tracer.Trace
 * carries it out step by step on the logger and is proved to write exactly
 * TraceSpec's entries and to answer TraceSpec's reply. The lemmas after
 * TraceSpec are the protocol's properties.
 */
module Tracing {
  import opened Wrappers
  import opened Inspector
  import opened Formatter
  import opened Sink
  import opened Backtrace
  import opened Target
  import opened Logging

  // ----- configuration and environment -----

  /** The `proxy_response:` option: true or false, or a list of method names. */
  datatype ProxyResponse = Flag(on: bool) | Members(names: seq<string>)

  /** Tracer#proxy_response?: the flag itself, or whether meth is listed. */
  predicate ProxyResponds(pr: ProxyResponse, meth: string) {
    match pr
    case Flag(on) => on
    case Members(names) => meth in names
  }

  /** What a Tracer's protocol depends on: its target, its `ignore` and
      `proxy_response` options, and the backtrace policy of its logger. */
  datatype Config = Config(target: Value, ignore: seq<string>, proxyResponse: ProxyResponse, backtrace: Policy)

  /** What the tracing code takes from the running program: how the target
      behaves, the caller frames above the call, which exceptions are
      StandardErrors (the ones `rescue StandardError` catches), the object_id
      of an exception the tracing code raises itself, and the clock. */
  datatype Env = Env(world: World, frames: seq<string>, standard: Value -> bool, freshId: nat, now: int)

  /** What a traced call answers: the target's response itself, a new Proxy
      over the response, or a raised exception. */
  datatype Reply = Returned(value: Value) | ProxyOver(value: Value) | Raised(error: Value)

  datatype TraceResult = TraceResult(entries: seq<Entry>, reply: Reply)

  /** The ArgumentError Proxy.new raises when it gets no truthy target. */
  function MissingTarget(id: nat): (e: Value)
    ensures e.cls == "ArgumentError" && e.id == id
  {
    RaisedError("ArgumentError", "Missing required proxy target", id)
  }

  // ----- the messages -----
  //
  // Each message is a squiggly heredoc whose last line ends in a newline,
  // passed through String#chomp. The functions below give the chomped text;
  // the lemmas CallingChomp .. ErrorChomp show that chomping the heredoc
  // (the text plus its final newline) gives exactly that text.

  function YesNo(b: bool): string {
    if b then "Yes" else "No"
  }

  /** String interpolation of an optional text: nil interpolates as "". */
  function OrEmpty(s: Option<string>): string {
    if s.Some? then s.value else ""
  }

  function CallingText(meth: string, target: Value, args: Value, blockGiven: bool, backtrace: Option<string>): string {
    "Calling `" + (meth + ("` on " + (IdObject(target) + ("\n\nArguments:\n\n" + (InspectObject(args)
      + ("\n\nBlock given? " + (YesNo(blockGiven) + ("\n" + OrEmpty(backtrace)))))))))
  }

  function ResponseText(meth: string, response: Value): string {
    "`" + (meth + ("` response\n\n" + InspectObject(response)))
  }

  function ProxiedText(meth: string, target: Value, response: Value): string {
    "Returning proxied response to `" + (meth + ("`\n\nProxy from `" + (meth + ("` on " + (IdObject(target)
      + ("\n\nProxy for:\n\n" + InspectObject(response)))))))
  }

  function YieldText(meth: string, target: Value, args: Value): string {
    "Yield to block in `" + (meth + ("` on " + (IdObject(target) + ("\n\nArguments:\n\n" + InspectObject(args)))))
  }

  function BlockResponseText(meth: string, response: Value): string {
    "Response from block in `" + (meth + ("`\n\n" + InspectObject(response)))
  }

  function ErrorText(meth: string, error: Value): string {
    "Error in `" + (meth + ("`\n\nType: " + (error.cls + ("\n\n" + InspectObject(error)))))
  }

  // ----- the protocol as a function of the call -----

  /** log_call_signature, unless the method is ignored. */
  function CallEntries(c: Config, meth: string, args: Value, blockGiven: bool, frames: seq<string>): seq<Entry> {
    if meth in c.ignore then []
    else [Entry(Info, 1, CallingText(meth, c.target, args, blockGiven, InspectBacktrace(c.backtrace, frames)))]
  }

  /** The wrapper's entries for one yield: "Yield" before the block runs and,
      when the block returns, "Response from block" after it. */
  function StepEntries(meth: string, target: Value, s: Step): seq<Entry> {
    [Entry(Info, 2, YieldText(meth, target, s.args))]
      + (if s.answer.Returns? then [Entry(Info, 3, BlockResponseText(meth, s.answer.value))] else [])
  }

  function YieldEntries(meth: string, target: Value, steps: seq<Step>): seq<Entry>
    decreases |steps|
  {
    if steps == [] then []
    else YieldEntries(meth, target, steps[..|steps| - 1]) + StepEntries(meth, target, steps[|steps| - 1])
  }

  /** The wrapper's entries over the whole call: none when no block is given,
      since then no wrapper is passed. */
  function BlockEntries(meth: string, target: Value, script: Script, blk: Option<Block>): seq<Entry> {
    if blk.None? then [] else YieldEntries(meth, target, Steps(script.yieldArgs, blk.value))
  }

  /** log_response, unless the method is ignored. */
  function ResponseEntries(ignore: seq<string>, meth: string, response: Value): seq<Entry> {
    if meth in ignore then [] else [Entry(Info, 2, ResponseText(meth, response))]
  }

  /** log_and_reraise_error, for an exception `rescue StandardError` catches. */
  function ErrorEntries(meth: string, error: Value, rescued: bool): seq<Entry> {
    if rescued then [Entry(Error, 2, ErrorText(meth, error))] else []
  }

  /** log_and_proxy_response once the target has returned: the response,
      then, under proxy_response?, the proxied response and the new Proxy
      (or, for a falsy response, the ArgumentError of Proxy.new). */
  function Respond(c: Config, meth: string, v: Value, env: Env): TraceResult {
    var resp := ResponseEntries(c.ignore, meth, v);
    if !ProxyResponds(c.proxyResponse, meth) then TraceResult(resp, Returned(v))
    else
      var proxied := resp + [Entry(Info, 3, ProxiedText(meth, c.target, v))];
      if Truthy(v) then TraceResult(proxied, ProxyOver(v))
      else TraceResult(proxied + ErrorEntries(meth, MissingTarget(env.freshId), true), Raised(MissingTarget(env.freshId)))
  }

  /** Everything after the target has answered: the response, or the error. */
  function Finish(c: Config, meth: string, outcome: Outcome, env: Env): TraceResult {
    match outcome
    case Raises(e) => TraceResult(ErrorEntries(meth, e, env.standard(e)), Raised(e))
    case Returns(v) => Respond(c, meth, v, env)
  }

  /** The script the target runs for this call. */
  function Called(c: Config, meth: string, args: Value, blk: Option<Block>, env: Env): Script {
    env.world(c.target, meth, args, blk.Some?)
  }

  /** How the target answers the call, the block being wrapped. */
  function TargetOutcome(c: Config, meth: string, args: Value, blk: Option<Block>, env: Env): Outcome {
    Run(Called(c, meth, args, blk, env), blk)
  }

  /** Tracer#trace as a function of the call. */
  function TraceSpec(c: Config, meth: string, args: Value, blk: Option<Block>, env: Env): TraceResult {
    var finish := Finish(c, meth, TargetOutcome(c, meth, args, blk, env), env);
    TraceResult(CallEntries(c, meth, args, blk.Some?, env.frames) + BlockEntries(meth, c.target, Called(c, meth, args, blk, env), blk)
                  + finish.entries,
                finish.reply)
  }

  /** The logger's heading level after the given entries were logged from
      heading level h. */
  function HeadingAfter(h: nat, entries: seq<Entry>): nat {
    if entries == [] then h else entries[|entries| - 1].heading
  }

  // ----- the Tracer and the Proxy -----

  /** The options a Tracer hands on to the proxies it makes. */
  datatype ProxyOptions = ProxyOptions(overwrite: seq<string>, backtrace: Policy)

  /** The proc log_and_proxy_block makes around a block. */
  datatype Wrapper = Wrapper(meth: string, blk: Block)

  /** log_and_proxy_block: nil for a nil block, otherwise a wrapper. */
  function LogAndProxyBlock(meth: string, blk: Option<Block>): Option<Wrapper> {
    if blk.None? then None else Some(Wrapper(meth, blk.value))
  }

  class Tracer {
    const target: Value
    const logger: MarkdownLogger
    const ignore: seq<string>
    const proxyResponse: ProxyResponse
    const options: ProxyOptions

    constructor (target: Value, logger: MarkdownLogger, ignore: seq<string>, proxyResponse: ProxyResponse, options: ProxyOptions)
      ensures this.target == target && this.logger == logger && this.ignore == ignore
      ensures this.proxyResponse == proxyResponse && this.options == options
    {
      this.target := target;
      this.logger := logger;
      this.ignore := ignore;
      this.proxyResponse := proxyResponse;
      this.options := options;
    }

    function Configuration(): Config {
      Config(target, ignore, proxyResponse, logger.backtrace)
    }

    /** log_call_signature, which writes nothing for an ignored method. */
    method LogCallSignature(meth: string, args: Value, blockGiven: bool, frames: seq<string>)
      modifies logger, logger.stdLogger
      ensures logger.stdLogger.records == old(logger.stdLogger.records) + Shown(old(logger.InstalledHeading()), CallEntries(Configuration(), meth, args, blockGiven, frames))
      ensures logger.InstalledHeading() == old(logger.InstalledHeading())
      ensures logger.headingLevel == HeadingAfter(old(logger.headingLevel), CallEntries(Configuration(), meth, args, blockGiven, frames))
    {
      if meth in ignore {
        return;
      }
      logger.Log(Info, 1, CallingText(meth, target, args, blockGiven, logger.InspectBacktrace(frames)));
    }

    /** One call of the wrapper: "Yield", the block itself, and on its
        return "Response from block"; its answer is passed on unchanged. */
    method CallWrapper(w: Wrapper, args: Value) returns (answer: Outcome)
      modifies logger, logger.stdLogger
      ensures answer == w.blk(args)
      ensures logger.stdLogger.records == old(logger.stdLogger.records) + Shown(old(logger.InstalledHeading()), StepEntries(w.meth, target, Step(args, answer)))
      ensures logger.InstalledHeading() == old(logger.InstalledHeading())
      ensures logger.headingLevel == HeadingAfter(old(logger.headingLevel), StepEntries(w.meth, target, Step(args, answer)))
    {
      logger.Log(Info, 2, YieldText(w.meth, target, args));
      answer := w.blk(args);
      if answer.Returns? {
        logger.Log(Info, 3, BlockResponseText(w.meth, answer.value));
      }
    }

    /** target.public_send(meth, *args, &log_and_proxy_block(meth, blk)):
        without a block no wrapper is passed and nothing is logged. */
    method CallTarget(meth: string, script: Script, blk: Option<Block>) returns (outcome: Outcome)
      modifies logger, logger.stdLogger
      ensures outcome == Run(script, blk)
      ensures logger.stdLogger.records == old(logger.stdLogger.records) + Shown(old(logger.InstalledHeading()), BlockEntries(meth, target, script, blk))
      ensures logger.InstalledHeading() == old(logger.InstalledHeading())
      ensures logger.headingLevel == HeadingAfter(old(logger.headingLevel), BlockEntries(meth, target, script, blk))
    {
      var w := LogAndProxyBlock(meth, blk);
      if w.None? {
        outcome := script.finish([]);
      } else {
        outcome := YieldEach(w.value, script);
      }
    }

    /** The target running with the wrapper: it yields each of its argument
        arrays to the wrapper until the block raises, then ends as its
        script says. */
    method YieldEach(wrapper: Wrapper, script: Script) returns (outcome: Outcome)
      modifies logger, logger.stdLogger
      ensures outcome == Run(script, Some(wrapper.blk))
      ensures logger.stdLogger.records == old(logger.stdLogger.records) + Shown(old(logger.InstalledHeading()), YieldEntries(wrapper.meth, target, Steps(script.yieldArgs, wrapper.blk)))
      ensures logger.InstalledHeading() == old(logger.InstalledHeading())
      ensures logger.headingLevel == HeadingAfter(old(logger.headingLevel), YieldEntries(wrapper.meth, target, Steps(script.yieldArgs, wrapper.blk)))
    {
      ghost var r0, h0, installed := logger.stdLogger.records, logger.headingLevel, logger.InstalledHeading();
      var meth, blk, ya := wrapper.meth, wrapper.blk, script.yieldArgs;
      var answers: seq<Value> := [];
      ghost var steps: seq<Step> := [];
      var i := 0;
      while i < |ya|
        invariant 0 <= i <= |ya|
        invariant steps == StepsUpTo(ya, i, blk) && !BlockRaised(steps)
        invariant answers == Answers(steps)
        invariant logger.stdLogger.records == r0 + Shown(installed, YieldEntries(meth, target, steps))
        invariant logger.InstalledHeading() == installed
        invariant logger.headingLevel == HeadingAfter(h0, YieldEntries(meth, target, steps))
      {
        var answer := CallWrapper(wrapper, ya[i]);
        YieldStep(meth, target, ya, i, blk, steps, answer, r0, h0, installed);
        steps := steps + [Step(ya[i], answer)];
        if answer.Raises? {
          StepsStopAtRaise(ya, i + 1, |ya|, blk);
          outcome := answer;
          return;
        }
        answers := answers + [answer.value];
        i := i + 1;
      }
      outcome := script.finish(answers);
    }

    /** log_response, which writes nothing for an ignored method. */
    method LogResponse(meth: string, response: Value)
      modifies logger, logger.stdLogger
      ensures logger.headingLevel == HeadingAfter(old(logger.headingLevel), ResponseEntries(ignore, meth, response))
      ensures logger.stdLogger.records == old(logger.stdLogger.records) + Shown(old(logger.InstalledHeading()), ResponseEntries(ignore, meth, response))
      ensures logger.InstalledHeading() == old(logger.InstalledHeading())
    {
      if meth in ignore {
        return;
      }
      logger.Log(Info, 2, ResponseText(meth, response));
    }

    /** log_and_reraise_error: the error is logged at heading 2, and the
        same object is raised again. */
    method LogAndReraiseError(meth: string, error: Value) returns (reply: Reply)
      modifies logger, logger.stdLogger
      ensures reply == Raised(error)
      ensures logger.headingLevel == 2
      ensures logger.stdLogger.records == old(logger.stdLogger.records) + Shown(old(logger.InstalledHeading()), [Entry(Error, 2, ErrorText(meth, error))])
      ensures logger.InstalledHeading() == old(logger.InstalledHeading())
    {
      logger.Log(Error, 2, ErrorText(meth, error));
      reply := Raised(error);
    }

    /** log_and_proxy_response after the target has returned v. */
    method LogAndProxyResponse(meth: string, v: Value, env: Env) returns (reply: Reply, proxy: Proxy?)
      modifies logger, logger.stdLogger
      ensures logger.stdLogger.records == old(logger.stdLogger.records) + Shown(old(logger.InstalledHeading()), Respond(Configuration(), meth, v, env).entries)
      ensures logger.InstalledHeading() == old(logger.InstalledHeading())
      ensures logger.headingLevel == HeadingAfter(old(logger.headingLevel), Respond(Configuration(), meth, v, env).entries)
      ensures reply == Respond(Configuration(), meth, v, env).reply
      ensures proxy != null <==> reply.ProxyOver?
      ensures proxy != null ==> fresh(proxy) && proxy.Valid() && proxy.target == v && proxy.logger == logger
      ensures proxy != null ==> proxy.tracer.ignore == ignore && proxy.tracer.proxyResponse == proxyResponse
      ensures proxy != null ==> proxy.tracer.options == options && proxy.overwrite == options.overwrite
    {
      ghost var c, r0, installed := Configuration(), logger.stdLogger.records, logger.InstalledHeading();
      ghost var resp := ResponseEntries(ignore, meth, v);
      proxy := null;
      if meth !in ignore {
        LogResponse(meth, v);
      } else {
        assert r0 + Shown(installed, resp) == r0;
      }
      if !ProxyResponds(proxyResponse, meth) {
        reply := Returned(v);
        assert Respond(c, meth, v, env) == TraceResult(resp, Returned(v));
        return;
      }
      ghost var notice := [Entry(Info, 3, ProxiedText(meth, target, v))];
      logger.Log(Info, 3, ProxiedText(meth, target, v));
      ShownConcat(installed, resp, notice);
      AppendAssoc(r0, Shown(installed, resp), Shown(installed, notice));
      var created := Proxy.Create(None, Some(v), Markdown(logger), options.backtrace, ignore, proxyResponse,
                                  options.overwrite, env.now, env.freshId);
      if created.Ok? {
        reply := ProxyOver(v);
        proxy := created.value;
        assert Respond(c, meth, v, env) == TraceResult(resp + notice, ProxyOver(v));
      } else {
        ghost var errs := ErrorEntries(meth, MissingTarget(env.freshId), true);
        reply := LogAndReraiseError(meth, created.error);
        ShownConcat(installed, resp + notice, errs);
        AppendAssoc(r0, Shown(installed, resp + notice), Shown(installed, errs));
        assert Respond(c, meth, v, env) == TraceResult(resp + notice + errs, Raised(MissingTarget(env.freshId)));
      }
    }

    /** The rest of trace once the target has answered. */
    method Conclude(meth: string, outcome: Outcome, env: Env) returns (reply: Reply, proxy: Proxy?)
      modifies logger, logger.stdLogger
      ensures logger.stdLogger.records == old(logger.stdLogger.records) + Shown(old(logger.InstalledHeading()), Finish(Configuration(), meth, outcome, env).entries)
      ensures logger.InstalledHeading() == old(logger.InstalledHeading())
      ensures logger.headingLevel == HeadingAfter(old(logger.headingLevel), Finish(Configuration(), meth, outcome, env).entries)
      ensures reply == Finish(Configuration(), meth, outcome, env).reply
      ensures proxy != null <==> reply.ProxyOver?
      ensures proxy != null ==> fresh(proxy) && proxy.Valid() && proxy.target == reply.value && proxy.logger == logger
      ensures proxy != null ==> proxy.tracer.ignore == ignore && proxy.tracer.proxyResponse == proxyResponse
      ensures proxy != null ==> proxy.tracer.options == options && proxy.overwrite == options.overwrite
    {
      if outcome.Returns? {
        reply, proxy := LogAndProxyResponse(meth, outcome.value, env);
      } else if env.standard(outcome.error) {
        reply := LogAndReraiseError(meth, outcome.error);
        proxy := null;
      } else {
        reply := Raised(outcome.error);
        proxy := null;
      }
    }

    /** Tracer#trace. A proxied response comes back as a new Proxy over it
        that shares this Tracer's logger and options. */
    method Trace(meth: string, args: Value, blk: Option<Block>, env: Env) returns (reply: Reply, proxy: Proxy?)
      modifies logger, logger.stdLogger
      ensures logger.stdLogger.records == old(logger.stdLogger.records) + Shown(old(logger.InstalledHeading()), TraceSpec(Configuration(), meth, args, blk, env).entries)
      ensures logger.InstalledHeading() == old(logger.InstalledHeading())
      ensures logger.headingLevel == HeadingAfter(old(logger.headingLevel), TraceSpec(Configuration(), meth, args, blk, env).entries)
      ensures reply == TraceSpec(Configuration(), meth, args, blk, env).reply
      ensures proxy != null <==> reply.ProxyOver?
      ensures proxy != null ==> fresh(proxy) && proxy.Valid() && proxy.target == reply.value && proxy.logger == logger
      ensures proxy != null ==> proxy.tracer.ignore == ignore && proxy.tracer.proxyResponse == proxyResponse
      ensures proxy != null ==> proxy.tracer.options == options && proxy.overwrite == options.overwrite
    {
      ghost var c := Configuration();
      ghost var r0 := logger.stdLogger.records;
      ghost var h0 := logger.headingLevel;
      ghost var installed := logger.InstalledHeading();
      var script := env.world(target, meth, args, blk.Some?);
      ghost var part1 := CallEntries(c, meth, args, blk.Some?, env.frames);
      ghost var part2 := BlockEntries(meth, target, script, blk);
      LogCallSignature(meth, args, blk.Some?, env.frames);
      var outcome := CallTarget(meth, script, blk);
      assert outcome == TargetOutcome(c, meth, args, blk, env);
      ghost var part3 := Finish(c, meth, outcome, env).entries;
      reply, proxy := Conclude(meth, outcome, env);
      HeadingAfterConcat(h0, part1, part2);
      HeadingAfterConcat(h0, part1 + part2, part3);
      ShownConcat(installed, part1, part2);
      ShownConcat(installed, part1 + part2, part3);
      AppendAssoc(r0, Shown(installed, part1), Shown(installed, part2));
      AppendAssoc(r0, Shown(installed, part1 + part2), Shown(installed, part3));
    }
  }

  /** Proxy.new(to_proxy, target:): the positional target if it is truthy,
      else the keyword one, which must be truthy too; otherwise Proxy.new
      raises ArgumentError. */
  function TargetOf(toProxy: Option<Value>, target: Option<Value>, freshId: nat): (r: Result<Value, Value>)
    ensures r.Ok? <==> (toProxy.Some? && Truthy(toProxy.value)) || (target.Some? && Truthy(target.value))
    ensures r.Ok? && toProxy.Some? && Truthy(toProxy.value) ==> r.value == toProxy.value
    ensures r.Ok? && !(toProxy.Some? && Truthy(toProxy.value)) ==> r.value == target.value
    ensures r.Err? ==> r.error == MissingTarget(freshId)
  {
    var chosen := if toProxy.Some? && Truthy(toProxy.value) then toProxy else target;
    if chosen.Some? && Truthy(chosen.value) then Ok(chosen.value) else Err(MissingTarget(freshId))
  }

  class Proxy {
    const target: Value
    const logger: MarkdownLogger
    const tracer: Tracer
    const overwrite: seq<string>

    /** The Proxy's Tracer traces its own target into its own logger. */
    predicate Valid() {
      tracer.target == target && tracer.logger == logger
    }

    constructor (target: Value, logger: MarkdownLogger, ignore: seq<string>, proxyResponse: ProxyResponse,
                 overwrite: seq<string>, backtrace: Policy)
      ensures Valid() && this.target == target && this.logger == logger && this.overwrite == overwrite
      ensures fresh(tracer) && tracer.ignore == ignore && tracer.proxyResponse == proxyResponse
      ensures tracer.options == ProxyOptions(overwrite, backtrace)
    {
      this.target := target;
      this.logger := logger;
      this.overwrite := overwrite;
      tracer := new Tracer(target, logger, ignore, proxyResponse, ProxyOptions(overwrite, backtrace));
    }

    /** Proxy.new: the target check comes first, so a missing target raises
        before any logger is made; then MarkdownLogger.build on the location
        and a Tracer over both. */
    static method Create(toProxy: Option<Value>, target: Option<Value>, location: LoggerLocation, backtrace: Policy,
                         ignore: seq<string>, proxyResponse: ProxyResponse, overwrite: seq<string>,
                         now: int, freshId: nat) returns (r: Result<Proxy, Value>)
      modifies if location.Plain? && location.location.Existing? then {location.location.logger} else {}
      ensures r.Err? <==> TargetOf(toProxy, target, freshId).Err?
      ensures r.Err? ==> r.error == MissingTarget(freshId)
      ensures r.Ok? ==> fresh(r.value) && r.value.Valid() && r.value.target == TargetOf(toProxy, target, freshId).value
      ensures r.Ok? ==> r.value.tracer.ignore == ignore && r.value.tracer.proxyResponse == proxyResponse
      ensures r.Ok? ==> r.value.overwrite == overwrite && r.value.tracer.options == ProxyOptions(overwrite, backtrace)
      ensures r.Ok? && location.Markdown? ==> r.value.logger == location.logger
      ensures r.Ok? && location.Plain? ==> fresh(r.value.logger) && r.value.logger.headingLevel == 1
      ensures r.Ok? && location.Plain? ==> r.value.logger.backtrace == backtrace
      ensures r.Ok? && location.Plain? ==> r.value.logger.stdLogger.formatter == r.value.logger && r.value.logger.InstalledHeading() == None
      ensures r.Ok? && location.Plain? && location.location.Existing? ==> r.value.logger.stdLogger == location.location.logger
      ensures r.Err? ==> unchanged(if location.Plain? && location.location.Existing? then {location.location.logger} else {})
    {
      var chosen := TargetOf(toProxy, target, freshId);
      if chosen.Err? {
        return Err(chosen.error);
      }
      var logger := Build(location, backtrace, now);
      var p := new Proxy(chosen.value, logger, ignore, proxyResponse, overwrite, backtrace);
      r := Ok(p);
    }

    /** Proxy#method_missing, and every method named in `overwrite`: the call
        is traced with the same method name, arguments and block. */
    method MethodMissing(meth: string, args: Value, blk: Option<Block>, env: Env) returns (reply: Reply, proxy: Proxy?)
      requires Valid()
      modifies logger, logger.stdLogger
      ensures logger.stdLogger.records == old(logger.stdLogger.records) + Shown(old(logger.InstalledHeading()), TraceSpec(tracer.Configuration(), meth, args, blk, env).entries)
      ensures logger.InstalledHeading() == old(logger.InstalledHeading())
      ensures logger.headingLevel == HeadingAfter(old(logger.headingLevel), TraceSpec(tracer.Configuration(), meth, args, blk, env).entries)
      ensures reply == TraceSpec(tracer.Configuration(), meth, args, blk, env).reply
      ensures proxy != null <==> reply.ProxyOver?
      ensures proxy != null ==> fresh(proxy) && proxy.Valid() && proxy.target == reply.value && proxy.logger == logger
      ensures proxy != null ==> proxy.tracer.ignore == tracer.ignore && proxy.tracer.proxyResponse == tracer.proxyResponse
      ensures proxy != null ==> proxy.tracer.options == tracer.options && proxy.overwrite == tracer.options.overwrite
    {
      reply, proxy := tracer.Trace(meth, args, blk, env);
    }
  }

  // ----- helper lemmas for the step-by-step proof -----

  lemma HeadingAfterConcat(h: nat, a: seq<Entry>, b: seq<Entry>)
    ensures HeadingAfter(h, a + b) == HeadingAfter(HeadingAfter(h, a), b)
  {
    if b == [] {
      assert a + b == a;
    }
  }

  lemma YieldEntriesAppend(meth: string, target: Value, steps: seq<Step>, s: Step)
    ensures YieldEntries(meth, target, steps + [s]) == YieldEntries(meth, target, steps) + StepEntries(meth, target, s)
  {
    assert (steps + [s])[..|steps|] == steps;
  }

  /** One more yield through the wrapper, in the terms of YieldEach's loop:
      the step joins the steps so far, its entries join the log, and a
      returned answer joins the answers. */
  lemma YieldStep(meth: string, target: Value, ya: seq<Value>, i: nat, blk: Block, before: seq<Step>, answer: Outcome,
                  r0: seq<Entry>, h0: nat, installed: Option<nat>)
    requires i < |ya| && before == StepsUpTo(ya, i, blk) && !BlockRaised(before) && answer == blk(ya[i])
    ensures StepsUpTo(ya, i + 1, blk) == before + [Step(ya[i], answer)]
    ensures r0 + Shown(installed, YieldEntries(meth, target, before)) + Shown(installed, StepEntries(meth, target, Step(ya[i], answer)))
            == r0 + Shown(installed, YieldEntries(meth, target, before + [Step(ya[i], answer)]))
    ensures HeadingAfter(HeadingAfter(h0, YieldEntries(meth, target, before)), StepEntries(meth, target, Step(ya[i], answer)))
            == HeadingAfter(h0, YieldEntries(meth, target, before + [Step(ya[i], answer)]))
    ensures answer.Returns? ==> Answers(before + [Step(ya[i], answer)]) == Answers(before) + [answer.value]
  {
    var step := Step(ya[i], answer);
    AppendAssoc(r0, Shown(installed, YieldEntries(meth, target, before)), Shown(installed, StepEntries(meth, target, step)));
    ShownConcat(installed, YieldEntries(meth, target, before), StepEntries(meth, target, step));
    YieldEntriesAppend(meth, target, before, step);
    HeadingAfterConcat(h0, YieldEntries(meth, target, before), StepEntries(meth, target, step));
    if answer.Returns? {
      AnswersAppend(before, step);
    }
  }

  lemma AnswersAppend(steps: seq<Step>, s: Step)
    requires s.answer.Returns?
    ensures Answers(steps + [s]) == Answers(steps) + [s.answer.value]
  {
    assert (steps + [s])[..|steps|] == steps;
  }

  // ----- the messages, as the log shows them -----

  // Each message's kind can be read from how its text begins.

  lemma CallingKind(meth: string, target: Value, args: Value, blockGiven: bool, backtrace: Option<string>)
    ensures KindOf(CallingText(meth, target, args, blockGiven, backtrace)) == Calling
  {
  }

  lemma ResponseKind(meth: string, v: Value)
    ensures KindOf(ResponseText(meth, v)) == Response
  {
  }

  lemma ProxiedKind(meth: string, target: Value, v: Value)
    ensures KindOf(ProxiedText(meth, target, v)) == ProxiedResponse
  {
  }

  lemma YieldKind(meth: string, target: Value, args: Value)
    ensures KindOf(YieldText(meth, target, args)) == Yield
  {
  }

  lemma BlockResponseKind(meth: string, v: Value)
    ensures KindOf(BlockResponseText(meth, v)) == BlockResponse
  {
  }

  lemma ErrorKind(meth: string, v: Value)
    ensures KindOf(ErrorText(meth, v)) == Failure
  {
  }

  /** All entries are of the given kinds. */
  predicate OnlyKinds(entries: seq<Entry>, ks: set<Kind>) {
    forall i :: 0 <= i < |entries| ==> KindOf(entries[i].msg) in ks
  }

  lemma {:induction false} CountOutside(entries: seq<Entry>, ks: set<Kind>, k: Kind)
    requires OnlyKinds(entries, ks) && k !in ks
    ensures Count(entries, k) == 0
    decreases |entries|
  {
    if entries != [] {
      CountOutside(entries[..|entries| - 1], ks, k);
    }
  }

  lemma CallEntriesKinds(c: Config, meth: string, args: Value, blockGiven: bool, frames: seq<string>)
    ensures OnlyKinds(CallEntries(c, meth, args, blockGiven, frames), {Calling})
  {
    CallingKind(meth, c.target, args, blockGiven, InspectBacktrace(c.backtrace, frames));
  }

  lemma StepEntriesKinds(meth: string, target: Value, s: Step)
    ensures OnlyKinds(StepEntries(meth, target, s), {Yield, BlockResponse})
  {
    YieldKind(meth, target, s.args);
    if s.answer.Returns? {
      BlockResponseKind(meth, s.answer.value);
    }
  }

  lemma {:induction false} YieldEntriesKinds(meth: string, target: Value, steps: seq<Step>)
    ensures OnlyKinds(YieldEntries(meth, target, steps), {Yield, BlockResponse})
    decreases |steps|
  {
    if steps != [] {
      YieldEntriesKinds(meth, target, steps[..|steps| - 1]);
      StepEntriesKinds(meth, target, steps[|steps| - 1]);
    }
  }

  lemma BlockEntriesKinds(meth: string, target: Value, script: Script, blk: Option<Block>)
    ensures OnlyKinds(BlockEntries(meth, target, script, blk), {Yield, BlockResponse})
  {
    if blk.Some? {
      YieldEntriesKinds(meth, target, Steps(script.yieldArgs, blk.value));
    }
  }

  /** After the response entry, only the proxied response and its error. */
  lemma RespondKinds(c: Config, meth: string, v: Value, env: Env)
    ensures Respond(c, meth, v, env).entries[..|ResponseEntries(c.ignore, meth, v)|] == ResponseEntries(c.ignore, meth, v)
    ensures OnlyKinds(Respond(c, meth, v, env).entries[|ResponseEntries(c.ignore, meth, v)|..], {ProxiedResponse, Failure})
    ensures OnlyKinds(ResponseEntries(c.ignore, meth, v), {Response})
  {
    ResponseKind(meth, v);
    ProxiedKind(meth, c.target, v);
    ErrorKind(meth, MissingTarget(env.freshId));
  }

  lemma FinishKinds(c: Config, meth: string, outcome: Outcome, env: Env)
    ensures OnlyKinds(Finish(c, meth, outcome, env).entries, {Response, ProxiedResponse, Failure})
  {
    match outcome
    case Raises(e) =>
      ErrorKind(meth, e);
      assert Finish(c, meth, outcome, env).entries == ErrorEntries(meth, e, env.standard(e));
    case Returns(v) =>
      assert Finish(c, meth, outcome, env) == Respond(c, meth, v, env);
      RespondOnlyKinds(c, meth, v, env);
  }

  lemma RespondOnlyKinds(c: Config, meth: string, v: Value, env: Env)
    ensures OnlyKinds(Respond(c, meth, v, env).entries, {Response, ProxiedResponse, Failure})
  {
    RespondKinds(c, meth, v, env);
    OnlyKindsSplit(Respond(c, meth, v, env).entries, |ResponseEntries(c.ignore, meth, v)|,
                   {Response}, {ProxiedResponse, Failure}, {Response, ProxiedResponse, Failure});
  }

  lemma OnlyKindsSplit(f: seq<Entry>, n: nat, ks1: set<Kind>, ks2: set<Kind>, ks: set<Kind>)
    requires n <= |f| && OnlyKinds(f[..n], ks1) && OnlyKinds(f[n..], ks2) && ks1 <= ks && ks2 <= ks
    ensures OnlyKinds(f, ks)
  {
    forall i | 0 <= i < |f|
      ensures KindOf(f[i].msg) in ks
    {
      if i < n {
        assert f[i] == f[..n][i];
      } else {
        assert f[i] == f[n..][i - n];
      }
    }
  }

  /** The "Calling" entries of three phases are those of the first. */
  lemma CountCallingPhases(a: seq<Entry>, b: seq<Entry>, f: seq<Entry>)
    requires OnlyKinds(b, {Yield, BlockResponse}) && OnlyKinds(f, {Response, ProxiedResponse, Failure})
    ensures Count(a + b + f, Calling) == Count(a, Calling)
  {
    CountConcat(a + b, f, Calling);
    CountConcat(a, b, Calling);
    CountOutside(b, {Yield, BlockResponse}, Calling);
    CountOutside(f, {Response, ProxiedResponse, Failure}, Calling);
  }

  /** The entries of three phases of a kind written only after the target
      has answered are those of the last. */
  lemma CountFinishPhases(a: seq<Entry>, b: seq<Entry>, f: seq<Entry>, k: Kind)
    requires OnlyKinds(a, {Calling}) && OnlyKinds(b, {Yield, BlockResponse})
    requires k !in {Calling, Yield, BlockResponse}
    ensures Count(a + b + f, k) == Count(f, k)
  {
    CountConcat(a + b, f, k);
    CountConcat(a, b, k);
    CountOutside(a, {Calling}, k);
    CountOutside(b, {Yield, BlockResponse}, k);
  }

  lemma FirstOfLastPhase(a: seq<Entry>, b: seq<Entry>, f: seq<Entry>)
    requires f != []
    ensures (a + b + f)[|a| + |b|] == f[0]
  {
  }

  lemma EndOfLastPhase(a: seq<Entry>, b: seq<Entry>, f: seq<Entry>)
    requires f != []
    ensures (a + b + f)[|a + b + f| - 1] == f[|f| - 1]
    ensures |f| >= 2 ==> (a + b + f)[|a + b + f| - 2] == f[|f| - 2]
  {
  }

  // ----- the protocol's properties -----

  /** A method that is not ignored gets exactly one "Calling" entry, at
      heading 1, written before anything else; an ignored one gets none. */
  lemma CallingLoggedFirst(c: Config, meth: string, args: Value, blk: Option<Block>, env: Env)
    ensures Count(TraceSpec(c, meth, args, blk, env).entries, Calling) == if meth in c.ignore then 0 else 1
    ensures meth !in c.ignore ==>
      TraceSpec(c, meth, args, blk, env).entries != [] && TraceSpec(c, meth, args, blk, env).entries[0]
        == Entry(Info, 1, CallingText(meth, c.target, args, blk.Some?, InspectBacktrace(c.backtrace, env.frames)))
  {
    var script := Called(c, meth, args, blk, env);
    var a := CallEntries(c, meth, args, blk.Some?, env.frames);
    BlockEntriesKinds(meth, c.target, script, blk);
    var outcome := TargetOutcome(c, meth, args, blk, env);
    FinishKinds(c, meth, outcome, env);
    CountCallingPhases(a, BlockEntries(meth, c.target, script, blk), Finish(c, meth, outcome, env).entries);
    CallingKind(meth, c.target, args, blk.Some?, InspectBacktrace(c.backtrace, env.frames));
    if meth !in c.ignore {
      CountOne(a[0], Calling);
    } else {
      assert a == [];
    }
  }

  /** The response entries after the target's answer: one when the method is
      not ignored and the target returned, written first; none otherwise. */
  lemma FinishResponse(c: Config, meth: string, outcome: Outcome, env: Env)
    ensures Count(Finish(c, meth, outcome, env).entries, Response)
         == if meth !in c.ignore && outcome.Returns? then 1 else 0
    ensures meth !in c.ignore && outcome.Returns? ==>
      Finish(c, meth, outcome, env).entries != [] && Finish(c, meth, outcome, env).entries[0] == Entry(Info, 2, ResponseText(meth, outcome.value))
  {
    match outcome
    case Raises(e) =>
      ErrorKind(meth, e);
      CountOutside(Finish(c, meth, outcome, env).entries, {Failure}, Response);
    case Returns(v) =>
      assert Finish(c, meth, outcome, env) == Respond(c, meth, v, env);
      RespondResponse(c, meth, v, env);
  }

  /** FinishResponse for a target that returned. */
  lemma RespondResponse(c: Config, meth: string, v: Value, env: Env)
    ensures Count(Respond(c, meth, v, env).entries, Response) == if meth !in c.ignore then 1 else 0
    ensures meth !in c.ignore ==>
      Respond(c, meth, v, env).entries != [] && Respond(c, meth, v, env).entries[0] == Entry(Info, 2, ResponseText(meth, v))
  {
    var resp := ResponseEntries(c.ignore, meth, v);
    ResponseKind(meth, v);
    CountOne(Entry(Info, 2, ResponseText(meth, v)), Response);
    assert Count(resp, Response) == if meth !in c.ignore then 1 else 0;
    if ProxyResponds(c.proxyResponse, meth) {
      var p := Entry(Info, 3, ProxiedText(meth, c.target, v));
      ProxiedKind(meth, c.target, v);
      CountConcat(resp, [p], Response);
      CountOne(p, Response);
      if !Truthy(v) {
        var err := Entry(Error, 2, ErrorText(meth, MissingTarget(env.freshId)));
        ErrorKind(meth, MissingTarget(env.freshId));
        CountConcat(resp + [p], [err], Response);
        CountOne(err, Response);
        assert Respond(c, meth, v, env).entries == resp + [p] + [err];
      } else {
        assert Respond(c, meth, v, env).entries == resp + [p];
      }
    }
  }

  /** A method that is not ignored and whose target returns gets exactly
      one response entry; an ignored method, or a call that raises, gets
      none. */
  lemma ResponseLoggedOnce(c: Config, meth: string, args: Value, blk: Option<Block>, env: Env)
    ensures Count(TraceSpec(c, meth, args, blk, env).entries, Response)
         == if meth !in c.ignore && TargetOutcome(c, meth, args, blk, env).Returns? then 1 else 0
  {
    var script := Called(c, meth, args, blk, env);
    var outcome := TargetOutcome(c, meth, args, blk, env);
    var a := CallEntries(c, meth, args, blk.Some?, env.frames);
    var b := BlockEntries(meth, c.target, script, blk);
    CallEntriesKinds(c, meth, args, blk.Some?, env.frames);
    BlockEntriesKinds(meth, c.target, script, blk);
    CountFinishPhases(a, b, Finish(c, meth, outcome, env).entries, Response);
    FinishResponse(c, meth, outcome, env);
  }

  /** That response entry is at heading 2 and comes right after the
      wrapper's entries: the block has finished before the response is
      logged. */
  lemma ResponseAfterBlock(c: Config, meth: string, args: Value, blk: Option<Block>, env: Env)
    requires meth !in c.ignore && TargetOutcome(c, meth, args, blk, env).Returns?
    ensures |TraceSpec(c, meth, args, blk, env).entries| > 1 + |BlockEntries(meth, c.target, Called(c, meth, args, blk, env), blk)|
    ensures TraceSpec(c, meth, args, blk, env).entries[1 + |BlockEntries(meth, c.target, Called(c, meth, args, blk, env), blk)|]
         == Entry(Info, 2, ResponseText(meth, TargetOutcome(c, meth, args, blk, env).value))
  {
    var outcome := TargetOutcome(c, meth, args, blk, env);
    var a := CallEntries(c, meth, args, blk.Some?, env.frames);
    var b := BlockEntries(meth, c.target, Called(c, meth, args, blk, env), blk);
    FinishResponse(c, meth, outcome, env);
    FirstOfLastPhase(a, b, Finish(c, meth, outcome, env).entries);
  }

  /** Whether the method is ignored changes only the log: the call answers
      the same. */
  lemma ReplyIgnoresIgnore(c: Config, ignore: seq<string>, meth: string, args: Value, blk: Option<Block>, env: Env)
    ensures TraceSpec(c, meth, args, blk, env).reply == TraceSpec(c.(ignore := ignore), meth, args, blk, env).reply
  {
    var outcome := TargetOutcome(c, meth, args, blk, env);
    assert outcome == TargetOutcome(c.(ignore := ignore), meth, args, blk, env);
    FinishReplyIgnoresIgnore(c, ignore, meth, outcome, env);
  }

  lemma FinishReplyIgnoresIgnore(c: Config, ignore: seq<string>, meth: string, outcome: Outcome, env: Env)
    ensures Finish(c, meth, outcome, env).reply == Finish(c.(ignore := ignore), meth, outcome, env).reply
  {
  }

  /** The entries of a trace without its "Calling" and response entries. */
  function Unlogged(entries: seq<Entry>): seq<Entry>
    decreases |entries|
  {
    if entries == [] then []
    else
      var last := entries[|entries| - 1];
      Unlogged(entries[..|entries| - 1]) + (if KindOf(last.msg) in {Calling, Response} then [] else [last])
  }

  lemma {:induction false} UnloggedConcat(a: seq<Entry>, b: seq<Entry>)
    ensures Unlogged(a + b) == Unlogged(a) + Unlogged(b)
    decreases |b|
  {
    if b == [] {
      assert a + b == a;
    } else {
      var ab := a + b;
      assert ab[..|ab| - 1] == a + b[..|b| - 1];
      assert ab[|ab| - 1] == b[|b| - 1];
      UnloggedConcat(a, b[..|b| - 1]);
    }
  }

  lemma {:induction false} UnloggedKeeps(entries: seq<Entry>, ks: set<Kind>)
    requires OnlyKinds(entries, ks) && Calling !in ks && Response !in ks
    ensures Unlogged(entries) == entries
    decreases |entries|
  {
    if entries != [] {
      UnloggedKeeps(entries[..|entries| - 1], ks);
    }
  }

  lemma {:induction false} UnloggedDrops(entries: seq<Entry>, ks: set<Kind>)
    requires OnlyKinds(entries, ks) && ks <= {Calling, Response}
    ensures Unlogged(entries) == []
    decreases |entries|
  {
    if entries != [] {
      UnloggedDrops(entries[..|entries| - 1], ks);
    }
  }

  /** For an ignored method, the entries after the target's answer are those
      of the unignored method without its response entry. */
  lemma FinishUnlogged(c: Config, meth: string, outcome: Outcome, env: Env)
    requires meth in c.ignore
    ensures Finish(c, meth, outcome, env).entries == Unlogged(Finish(c.(ignore := []), meth, outcome, env).entries)
  {
    var c0 := c.(ignore := []);
    var f0 := Finish(c0, meth, outcome, env).entries;
    match outcome
    case Raises(e) =>
      ErrorKind(meth, e);
      UnloggedKeeps(f0, {Failure});
    case Returns(v) =>
      assert Finish(c, meth, outcome, env) == Respond(c, meth, v, env);
      assert Finish(c0, meth, outcome, env) == Respond(c0, meth, v, env);
      RespondUnlogged(c, meth, v, env);
  }

  /** FinishUnlogged for a target that returned. */
  lemma RespondUnlogged(c: Config, meth: string, v: Value, env: Env)
    requires meth in c.ignore
    ensures Respond(c, meth, v, env).entries == Unlogged(Respond(c.(ignore := []), meth, v, env).entries)
  {
    var r := Entry(Info, 2, ResponseText(meth, v));
    var tail := Respond(c, meth, v, env).entries;
    RespondIgnored(c, meth, v, env);
    RespondKinds(c, meth, v, env);
    assert tail[0..] == tail;
    ResponseKind(meth, v);
    UnloggedConcat([r], tail);
    UnloggedKeeps(tail, {ProxiedResponse, Failure});
    UnloggedDrops([r], {Response});
  }

  /** Ignoring a method only takes its response entry from the front. */
  lemma RespondIgnored(c: Config, meth: string, v: Value, env: Env)
    requires meth in c.ignore
    ensures Respond(c.(ignore := []), meth, v, env).entries == [Entry(Info, 2, ResponseText(meth, v))] + Respond(c, meth, v, env).entries
  {
  }

  /** Dropping the "Calling" and response entries from three phases. */
  lemma UnloggedPhases(a0: seq<Entry>, b: seq<Entry>, f0: seq<Entry>)
    requires Unlogged(a0) == [] && OnlyKinds(b, {Yield, BlockResponse})
    ensures Unlogged(a0 + b + f0) == b + Unlogged(f0)
  {
    UnloggedConcat(a0, b);
    UnloggedKeeps(b, {Yield, BlockResponse});
    assert Unlogged(a0 + b) == b;
    UnloggedConcat(a0 + b, f0);
  }

  /** Ignoring a method removes exactly its "Calling" and response entries
      from the trace and nothing else: the target is still called, its
      block's yields are still logged, its errors are still logged and
      re-raised, and the call answers the same. */
  lemma IgnoreOnlySuppresses(c: Config, meth: string, args: Value, blk: Option<Block>, env: Env)
    requires meth in c.ignore
    ensures TraceSpec(c, meth, args, blk, env).entries == Unlogged(TraceSpec(c.(ignore := []), meth, args, blk, env).entries)
    ensures TraceSpec(c, meth, args, blk, env).reply == TraceSpec(c.(ignore := []), meth, args, blk, env).reply
  {
    var c0 := c.(ignore := []);
    var script := Called(c, meth, args, blk, env);
    var outcome := TargetOutcome(c, meth, args, blk, env);
    assert outcome == TargetOutcome(c0, meth, args, blk, env);
    var a0 := CallEntries(c0, meth, args, blk.Some?, env.frames);
    var b := BlockEntries(meth, c.target, script, blk);
    CallEntriesKinds(c0, meth, args, blk.Some?, env.frames);
    UnloggedDrops(a0, {Calling});
    BlockEntriesKinds(meth, c.target, script, blk);
    var f0 := Finish(c0, meth, outcome, env).entries;
    var f := Finish(c, meth, outcome, env).entries;
    UnloggedPhases(a0, b, f0);
    FinishUnlogged(c, meth, outcome, env);
    assert TraceSpec(c, meth, args, blk, env).entries == b + f by {
      assert CallEntries(c, meth, args, blk.Some?, env.frames) == [];
      assert [] + b == b;
    }
    calc {
      Unlogged(TraceSpec(c0, meth, args, blk, env).entries);
      Unlogged(a0 + b + f0);
      b + Unlogged(f0);
      b + f;
    }
    ReplyIgnoresIgnore(c, [], meth, args, blk, env);
  }

  // ----- what the call answers -----

  /** Without proxy_response? the entries after the answer hold no proxied
      response, and the reply is the target's own answer. */
  lemma FinishPassesThrough(c: Config, meth: string, outcome: Outcome, env: Env)
    requires !ProxyResponds(c.proxyResponse, meth)
    ensures Count(Finish(c, meth, outcome, env).entries, ProxiedResponse) == 0
    ensures outcome.Returns? ==> Finish(c, meth, outcome, env).reply == Returned(outcome.value)
    ensures outcome.Raises? ==> Finish(c, meth, outcome, env).reply == Raised(outcome.error)
  {
    var f := Finish(c, meth, outcome, env).entries;
    match outcome
    case Raises(e) =>
      ErrorKind(meth, e);
      CountOutside(f, {Failure}, ProxiedResponse);
    case Returns(v) =>
      ResponseKind(meth, v);
      CountOutside(f, {Response}, ProxiedResponse);
  }

  /** A method that proxy_response? leaves out answers exactly what its
      target answered, whether a value or an exception, and no proxied
      response is logged for it. */
  lemma PassThrough(c: Config, meth: string, args: Value, blk: Option<Block>, env: Env)
    requires !ProxyResponds(c.proxyResponse, meth)
    ensures Count(TraceSpec(c, meth, args, blk, env).entries, ProxiedResponse) == 0
    ensures TargetOutcome(c, meth, args, blk, env).Returns? ==>
      TraceSpec(c, meth, args, blk, env).reply == Returned(TargetOutcome(c, meth, args, blk, env).value)
    ensures TargetOutcome(c, meth, args, blk, env).Raises? ==>
      TraceSpec(c, meth, args, blk, env).reply == Raised(TargetOutcome(c, meth, args, blk, env).error)
  {
    var script := Called(c, meth, args, blk, env);
    var outcome := TargetOutcome(c, meth, args, blk, env);
    var a := CallEntries(c, meth, args, blk.Some?, env.frames);
    var b := BlockEntries(meth, c.target, script, blk);
    CallEntriesKinds(c, meth, args, blk.Some?, env.frames);
    BlockEntriesKinds(meth, c.target, script, blk);
    CountFinishPhases(a, b, Finish(c, meth, outcome, env).entries, ProxiedResponse);
    FinishPassesThrough(c, meth, outcome, env);
  }

  /** Under proxy_response? a returned value is logged once as a proxied
      response at heading 3; a truthy one is answered by a new Proxy over it
      and that entry is the last, while a falsy one makes Proxy.new raise
      ArgumentError, which is logged as an error at heading 2 right after
      and raised to the caller. */
  lemma RespondProxies(c: Config, meth: string, v: Value, env: Env)
    requires ProxyResponds(c.proxyResponse, meth)
    ensures Count(Respond(c, meth, v, env).entries, ProxiedResponse) == 1
    ensures Truthy(v) ==> Respond(c, meth, v, env).reply == ProxyOver(v)
    ensures Truthy(v) ==>
      Respond(c, meth, v, env).entries != [] && Respond(c, meth, v, env).entries[|Respond(c, meth, v, env).entries| - 1] == Entry(Info, 3, ProxiedText(meth, c.target, v))
    ensures !Truthy(v) ==>
      Respond(c, meth, v, env).reply.Raised? && Respond(c, meth, v, env).reply.error.cls == "ArgumentError"
    ensures !Truthy(v) ==>
      |Respond(c, meth, v, env).entries| >= 2
      && Respond(c, meth, v, env).entries[|Respond(c, meth, v, env).entries| - 2] == Entry(Info, 3, ProxiedText(meth, c.target, v))
      && Respond(c, meth, v, env).entries[|Respond(c, meth, v, env).entries| - 1]
         == Entry(Error, 2, ErrorText(meth, Respond(c, meth, v, env).reply.error))
  {
    var resp := ResponseEntries(c.ignore, meth, v);
    var p := Entry(Info, 3, ProxiedText(meth, c.target, v));
    ResponseKind(meth, v);
    ProxiedKind(meth, c.target, v);
    CountOutside(resp, {Response}, ProxiedResponse);
    CountConcat(resp, [p], ProxiedResponse);
    CountOne(p, ProxiedResponse);
    if Truthy(v) {
      assert Respond(c, meth, v, env) == TraceResult(resp + [p], ProxyOver(v));
    } else {
      var err := Entry(Error, 2, ErrorText(meth, MissingTarget(env.freshId)));
      ErrorKind(meth, MissingTarget(env.freshId));
      CountConcat(resp + [p], [err], ProxiedResponse);
      CountOne(err, ProxiedResponse);
      assert Respond(c, meth, v, env) == TraceResult(resp + [p] + [err], Raised(MissingTarget(env.freshId)));
    }
  }

  /** The call-level statement of RespondProxies, for a target that
      returned. */
  lemma ProxiedReply(c: Config, meth: string, args: Value, blk: Option<Block>, env: Env)
    requires ProxyResponds(c.proxyResponse, meth) && TargetOutcome(c, meth, args, blk, env).Returns?
    ensures Count(TraceSpec(c, meth, args, blk, env).entries, ProxiedResponse) == 1
    ensures Truthy(TargetOutcome(c, meth, args, blk, env).value) ==>
      TraceSpec(c, meth, args, blk, env).reply == ProxyOver(TargetOutcome(c, meth, args, blk, env).value)
    ensures Truthy(TargetOutcome(c, meth, args, blk, env).value) ==>
      TraceSpec(c, meth, args, blk, env).entries != [] && TraceSpec(c, meth, args, blk, env).entries[|TraceSpec(c, meth, args, blk, env).entries| - 1]
        == Entry(Info, 3, ProxiedText(meth, c.target, TargetOutcome(c, meth, args, blk, env).value))
    ensures !Truthy(TargetOutcome(c, meth, args, blk, env).value) ==>
      TraceSpec(c, meth, args, blk, env).reply.Raised? && TraceSpec(c, meth, args, blk, env).reply.error.cls == "ArgumentError"
    ensures !Truthy(TargetOutcome(c, meth, args, blk, env).value) ==>
      TraceSpec(c, meth, args, blk, env).entries != [] && TraceSpec(c, meth, args, blk, env).entries[|TraceSpec(c, meth, args, blk, env).entries| - 1]
        == Entry(Error, 2, ErrorText(meth, TraceSpec(c, meth, args, blk, env).reply.error))
  {
    var script := Called(c, meth, args, blk, env);
    var v := TargetOutcome(c, meth, args, blk, env).value;
    var a := CallEntries(c, meth, args, blk.Some?, env.frames);
    var b := BlockEntries(meth, c.target, script, blk);
    var f := Respond(c, meth, v, env).entries;
    CallEntriesKinds(c, meth, args, blk.Some?, env.frames);
    BlockEntriesKinds(meth, c.target, script, blk);
    CountFinishPhases(a, b, f, ProxiedResponse);
    RespondProxies(c, meth, v, env);
    EndOfLastPhase(a, b, f);
  }

  /** An exception from the target is raised again to the caller as the
      same object; it is logged, once and as the last entry, at heading 2,
      exactly when it is a StandardError. */
  lemma ErrorReraised(c: Config, meth: string, args: Value, blk: Option<Block>, env: Env)
    requires TargetOutcome(c, meth, args, blk, env).Raises?
    ensures TraceSpec(c, meth, args, blk, env).reply == Raised(TargetOutcome(c, meth, args, blk, env).error)
    ensures Count(TraceSpec(c, meth, args, blk, env).entries, Failure)
         == if env.standard(TargetOutcome(c, meth, args, blk, env).error) then 1 else 0
    ensures env.standard(TargetOutcome(c, meth, args, blk, env).error) ==>
      TraceSpec(c, meth, args, blk, env).entries != [] && TraceSpec(c, meth, args, blk, env).entries[|TraceSpec(c, meth, args, blk, env).entries| - 1]
        == Entry(Error, 2, ErrorText(meth, TargetOutcome(c, meth, args, blk, env).error))
  {
    var script := Called(c, meth, args, blk, env);
    var e := TargetOutcome(c, meth, args, blk, env).error;
    var a := CallEntries(c, meth, args, blk.Some?, env.frames);
    var b := BlockEntries(meth, c.target, script, blk);
    var f := ErrorEntries(meth, e, env.standard(e));
    CallEntriesKinds(c, meth, args, blk.Some?, env.frames);
    BlockEntriesKinds(meth, c.target, script, blk);
    CountFinishPhases(a, b, f, Failure);
    if env.standard(e) {
      ErrorKind(meth, e);
      CountOne(f[0], Failure);
      EndOfLastPhase(a, b, f);
    } else {
      assert f == [];
    }
  }

  // ----- what the block wrapper logs -----

  /** Entry 2k of the wrapper's entries is the "Yield" of step k and entry
      2k+1 the block's response, when step k returned; a step that raised
      is the last and has only its "Yield". */
  lemma YieldEntriesAt(meth: string, target: Value, steps: seq<Step>)
    requires forall k :: 0 <= k < |steps| - 1 ==> steps[k].answer.Returns?
    ensures |YieldEntries(meth, target, steps)|
         == 2 * |steps| - (if steps != [] && steps[|steps| - 1].answer.Raises? then 1 else 0)
    ensures forall k :: 0 <= k < |steps| ==>
      2 * k < |YieldEntries(meth, target, steps)|
      && YieldEntries(meth, target, steps)[2 * k] == Entry(Info, 2, YieldText(meth, target, steps[k].args))
    ensures forall k :: 0 <= k < |steps| && steps[k].answer.Returns? ==>
      2 * k + 1 < |YieldEntries(meth, target, steps)|
      && YieldEntries(meth, target, steps)[2 * k + 1] == Entry(Info, 3, BlockResponseText(meth, steps[k].answer.value))
  {
    YieldEntriesLength(meth, target, steps);
    forall k | 0 <= k < |steps|
      ensures 2 * k < |YieldEntries(meth, target, steps)|
        && YieldEntries(meth, target, steps)[2 * k] == Entry(Info, 2, YieldText(meth, target, steps[k].args))
      ensures steps[k].answer.Returns? ==>
        2 * k + 1 < |YieldEntries(meth, target, steps)|
        && YieldEntries(meth, target, steps)[2 * k + 1] == Entry(Info, 3, BlockResponseText(meth, steps[k].answer.value))
    {
      YieldEntriesOfStep(meth, target, steps, k);
    }
  }

  /** Two entries per step, one for a step that raised. */
  lemma {:induction false} YieldEntriesLength(meth: string, target: Value, steps: seq<Step>)
    requires forall k :: 0 <= k < |steps| - 1 ==> steps[k].answer.Returns?
    ensures |YieldEntries(meth, target, steps)|
         == 2 * |steps| - (if steps != [] && steps[|steps| - 1].answer.Raises? then 1 else 0)
    decreases |steps|
  {
    if steps != [] {
      var init := steps[..|steps| - 1];
      assert forall k :: 0 <= k < |init| - 1 ==> init[k] == steps[k];
      YieldEntriesLength(meth, target, init);
      if init != [] {
        assert init[|init| - 1] == steps[|steps| - 2];
      }
    }
  }

  /** The entries of step k start at position 2k. */
  lemma {:induction false} YieldEntriesOfStep(meth: string, target: Value, steps: seq<Step>, k: nat)
    requires forall j :: 0 <= j < |steps| - 1 ==> steps[j].answer.Returns?
    requires k < |steps|
    ensures 2 * k < |YieldEntries(meth, target, steps)|
    ensures YieldEntries(meth, target, steps)[2 * k] == Entry(Info, 2, YieldText(meth, target, steps[k].args))
    ensures steps[k].answer.Returns? ==>
      2 * k + 1 < |YieldEntries(meth, target, steps)|
      && YieldEntries(meth, target, steps)[2 * k + 1] == Entry(Info, 3, BlockResponseText(meth, steps[k].answer.value))
    decreases |steps|
  {
    if k + 1 == |steps| {
      YieldEntriesPrefix(meth, target, steps, k);
      assert steps[..k + 1] == steps;
    } else {
      var init := steps[..|steps| - 1];
      assert init[k] == steps[k];
      assert forall j :: 0 <= j < |init| - 1 ==> init[j] == steps[j];
      YieldEntriesOfStep(meth, target, init, k);
      assert YieldEntries(meth, target, steps) == YieldEntries(meth, target, init) + StepEntries(meth, target, steps[|steps| - 1]);
    }
  }

  /** The first k steps give 2k entries, and step k's entries come next. */
  lemma YieldEntriesPrefix(meth: string, target: Value, steps: seq<Step>, k: nat)
    requires forall j :: 0 <= j < |steps| - 1 ==> steps[j].answer.Returns?
    requires k < |steps|
    ensures |YieldEntries(meth, target, steps[..k])| == 2 * k
    ensures YieldEntries(meth, target, steps[..k + 1]) == YieldEntries(meth, target, steps[..k]) + StepEntries(meth, target, steps[k])
  {
    var pre := steps[..k];
    assert forall j :: 0 <= j < |pre| - 1 ==> pre[j] == steps[j];
    YieldEntriesLength(meth, target, pre);
    if k > 0 {
      assert pre[|pre| - 1] == steps[k - 1];
    }
    assert steps[..k + 1][..k] == pre;
  }

  /** With a block, the wrapper logs each argument array the target yields
      as a "Yield" entry at heading 2 followed, when the block returns, by
      the block's response at heading 3. A block that raises ends the
      yields: its "Yield" entry is the wrapper's last. */
  lemma BlockLog(meth: string, target: Value, script: Script, b: Block)
    ensures forall k :: 0 <= k < |Steps(script.yieldArgs, b)| ==>
      Steps(script.yieldArgs, b)[k] == Step(script.yieldArgs[k], b(script.yieldArgs[k]))
    ensures |BlockEntries(meth, target, script, Some(b))|
         == 2 * |Steps(script.yieldArgs, b)| - (if BlockRaised(Steps(script.yieldArgs, b)) then 1 else 0)
    ensures !BlockRaised(Steps(script.yieldArgs, b)) ==> |BlockEntries(meth, target, script, Some(b))| == 2 * |script.yieldArgs|
    ensures forall k :: 0 <= k < |Steps(script.yieldArgs, b)| ==>
      2 * k < |BlockEntries(meth, target, script, Some(b))|
      && BlockEntries(meth, target, script, Some(b))[2 * k] == Entry(Info, 2, YieldText(meth, target, script.yieldArgs[k]))
    ensures forall k :: 0 <= k < |Steps(script.yieldArgs, b)| && b(script.yieldArgs[k]).Returns? ==>
      2 * k + 1 < |BlockEntries(meth, target, script, Some(b))|
      && BlockEntries(meth, target, script, Some(b))[2 * k + 1]
        == Entry(Info, 3, BlockResponseText(meth, b(script.yieldArgs[k]).value))
  {
    var steps := Steps(script.yieldArgs, b);
    StepsFollowScript(script.yieldArgs, b);
    YieldEntriesAt(meth, target, steps);
  }

  // ----- the messages as heredocs -----

  /** String#chomp on a heredoc removes its final newline and nothing more,
      unless the text before it ends in a carriage return. */
  lemma ChompHeredoc(t: string)
    requires t == [] || t[|t| - 1] != '\r'
    ensures Chomp(t + "\n") == t
  {
    var s := t + "\n";
    if |s| >= 2 {
      assert s[|s| - 2] == t[|t| - 1];
      assert s[|s| - 2..] != "\r\n";
    }
    assert s[..|s| - 1] == t;
  }

  lemma InspectObjectEnd(v: Value)
    ensures |InspectObject(v)| >= 3 && InspectObject(v)[|InspectObject(v)| - 1] == '`'
  {
  }

  // Each message is the tracer's heredoc with String#chomp applied: the
  // heredoc's last line ends in a newline, which chomp removes. All but the
  // "Calling" message end in an inspected object's closing fence; that one
  // ends in its backtrace, or in the "Block given?" line's newline.

  lemma CallingChomp(meth: string, target: Value, args: Value, blockGiven: bool, backtrace: Option<string>)
    requires backtrace.Some? && backtrace.value != [] ==> backtrace.value[|backtrace.value| - 1] != '\r'
    ensures Chomp(CallingText(meth, target, args, blockGiven, backtrace) + "\n") == CallingText(meth, target, args, blockGiven, backtrace)
  {
    var t := CallingText(meth, target, args, blockGiven, backtrace);
    var tail := "\n" + OrEmpty(backtrace);
    assert t[|t| - 1] == tail[|tail| - 1];
    ChompHeredoc(t);
  }

  lemma ResponseChomp(meth: string, v: Value)
    ensures Chomp(ResponseText(meth, v) + "\n") == ResponseText(meth, v)
  {
    InspectObjectEnd(v);
    ChompHeredoc(ResponseText(meth, v));
  }

  lemma ProxiedChomp(meth: string, target: Value, v: Value)
    ensures Chomp(ProxiedText(meth, target, v) + "\n") == ProxiedText(meth, target, v)
  {
    InspectObjectEnd(v);
    ChompHeredoc(ProxiedText(meth, target, v));
  }

  lemma YieldChomp(meth: string, target: Value, args: Value)
    ensures Chomp(YieldText(meth, target, args) + "\n") == YieldText(meth, target, args)
  {
    InspectObjectEnd(args);
    ChompHeredoc(YieldText(meth, target, args));
  }

  lemma BlockResponseChomp(meth: string, v: Value)
    ensures Chomp(BlockResponseText(meth, v) + "\n") == BlockResponseText(meth, v)
  {
    InspectObjectEnd(v);
    ChompHeredoc(BlockResponseText(meth, v));
  }

  lemma ErrorChomp(meth: string, v: Value)
    ensures Chomp(ErrorText(meth, v) + "\n") == ErrorText(meth, v)
  {
    InspectObjectEnd(v);
    ChompHeredoc(ErrorText(meth, v));
  }

  /** The "Calling" message tells whether a block was given. */
  lemma BlockGivenShown(meth: string, target: Value, args: Value, backtrace: Option<string>)
    ensures CallingText(meth, target, args, true, backtrace) != CallingText(meth, target, args, false, backtrace)
  {
    var head := "Calling `" + (meth + ("` on " + (IdObject(target) + ("\n\nArguments:\n\n" + (InspectObject(args)
      + "\n\nBlock given? ")))));
    var yes := CallingText(meth, target, args, true, backtrace);
    var no := CallingText(meth, target, args, false, backtrace);
    assert yes == head + ("Yes" + ("\n" + OrEmpty(backtrace)));
    assert no == head + ("No" + ("\n" + OrEmpty(backtrace)));
    assert yes[|head|] == 'Y' && no[|head|] == 'N';
  }
}
