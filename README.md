# markdown_logging_proxy in Dafny

MarkdownLoggingProxy wraps a Ruby object (the target) in a Proxy. Every
method call on the Proxy is passed on to the target and written to a log as
markdown: a "Calling" entry with the arguments, one entry per `yield` to the
caller's block and one per answer from it, the response, and an "Error"
entry when the call raises. The entries nest through markdown heading
levels. The library has two generations:

- **The Tracer protocol** (`lib/markdown_logging_proxy/tracer.rb`, and the
  bundled copy in `dist/markdown_logging_proxy.rb`). A Proxy hands each call
  to `Tracer#trace`, which logs through a shared `MarkdownLogger`.
- **The older standalone Proxy** (`lib/markdown_logging_proxy/proxy.rb`). It
  logs through a Ruby Logger whose formatter reads the heading level of the
  Proxy that set the Logger up.

The model is a set of Dafny modules:

| module | what it holds |
|---|---|
| `Wrappers` | `Option` and `Result` |
| `Inspector` | objects (`Value`: class name, object_id and the text `pretty_inspect` gives), `id_object`, `inspect_object`, `chomp`, `chop`, `join` |
| `Formatter` | the text a Logger's formatter writes for one entry: `#` repeated to the heading level, the severity, a closing blank line |
| `Sink` | a Ruby Logger: the entries its formatter wrote, the object whose formatter it runs, and the kind of message an entry holds |
| `Backtrace` | caller frames kept under the `backtrace:` option, and their bullets |
| `Target` | the traced object: a method call is a script of yields and an outcome |
| `Logging` | `MarkdownLogger`: its Logger, its heading level, `build`, and the heading a Logger's installed formatter reads |
| `Tracing` | `Tracer` and the Proxy of `dist`: the protocol as a function (`TraceSpec`), the classes that carry it out step by step, and its properties |
| `Legacy` | the older Proxy: the protocol as a function (`LegacyTrace`), the `LegacyProxy` class, and its properties |
| `Utils` | `MarkdownLoggingProxy::Utils`: the module-level heading level and its formatter |

**How it is proved.** Both protocols are first stated as functions of the
call: `Tracing.TraceSpec` and `Legacy.LegacyTrace`. Each gives the entries
written, in order, and the reply. The reply is the target's value, a new
Proxy over it, or a raised exception. The classes then change their logger
step by step, as the Ruby methods do. Each method is proved to append exactly
the function's entries, to leave the heading level the function says, and to
answer the function's reply. A Tracer's entries reach the Logger through
whichever formatter the Logger has: its own MarkdownLogger's, which writes
them as logged, or one installed on the same Logger since, which writes each
at its own installer's heading (`Logging.Shown`). The protocol's properties are lemmas about the
functions.

**Inputs from the running program.** Several things the Ruby code takes from
the running program are parameters of the model:

- `Env.world`: what the target's methods do.
- `Env.frames`: the caller frames.
- `Env.standard`: which exceptions count as StandardErrors.
- `Env.freshId`: the object_id of an exception the tracing code raises itself.
- The clock reading and elapsed time, the process id and time stamp: given as
  the text they print as.

**How the formatters read the heading level.**

- A Ruby Logger runs one formatter. MarkdownLogger's `create_logger`
  (lib/markdown_logging_proxy/markdown_logger.rb:49-53) and Utils'
  `format_logger` (lib/markdown_logging_proxy/utils.rb:16-21) both replace
  whatever formatter the Logger had. The proc they install reads the heading
  level of the object that installed it each time it runs. So MarkdownLoggers
  made over one Logger all write at the heading of the one made last
  (`Logging.LastInstallWins`), and so do their proxies.
- The older Proxy's formatter (lib/markdown_logging_proxy/proxy.rb:120-126)
  reads `@heading_level` of the Proxy that set the Logger up. A Proxy over a
  proxied response shares that Logger (proxy.rb:92), so it writes at the
  heading of the Proxy that set up the Logger, however many proxies lie
  between them (`Legacy.OwnerHeadingThroughout`). While that level is
  still nil, `'#' * nil` raises TypeError (`Legacy.IgnoredBlockRaisesTypeError`).

## Model

| member | source | states |
|---|---|---|
| Inspector.ParseHexOfHex | dist/markdown_logging_proxy.rb:14 | reading `object_id.to_s(16)` back as hexadecimal gives the object_id, so the hex text loses nothing |
| Inspector.IdObjectInjective | dist/markdown_logging_proxy.rb:12-15 | two objects get the same identity token exactly when they have the same class name and object_id |
| Inspector.ChompRemoves | dist/markdown_logging_proxy.rb:7 | `chomp` removes at most one trailing "\n", "\r" or "\r\n", and nothing earlier |
| Inspector.ChopRemoves | lib/markdown_logging_proxy/markdown_logger.rb:35 | `chop` removes exactly the last character, or a trailing "\r\n" as a whole, and keeps a prefix of the frame |
| Inspector.InspectObjectJoin | dist/markdown_logging_proxy.rb:3-10 | inspect_object is the newline join of the four parts: the fence "```ruby", "# " plus the identity token, the chomped rendering, and the closing fence |
| Inspector.InspectObjectLines | dist/markdown_logging_proxy.rb:3-10 | read line by line, inspect_object is the fence line, the identity line, the lines of the chomped rendering, and the closing fence |
| Inspector.LegacyInspectObjectJoin | lib/markdown_logging_proxy/proxy.rb:116-118 | the older `__inspect_object` is the newline join of the fence, the chomped rendering and the closing fence |
| Inspector.LegacyInspectObjectLines | lib/markdown_logging_proxy/proxy.rb:116-118 | read line by line, it is the fence line, the lines of the chomped rendering, and the closing fence |
| Backtrace.GrepMembers | lib/markdown_logging_proxy/markdown_logger.rb:27 | under a Regexp, a frame is kept exactly when it is one of the caller frames and matches |
| Backtrace.GrepConcat | lib/markdown_logging_proxy/markdown_logger.rb:27 | the kept frames stay in their original order: filtering a concatenation concatenates the filtered parts |
| Backtrace.Bullets | lib/markdown_logging_proxy/markdown_logger.rb:35 | one bullet per kept frame, in order, each the frame minus its last character, closed by a backtick |
| Backtrace.InspectBacktrace | lib/markdown_logging_proxy/markdown_logger.rb:22-37 | inspect_backtrace gives no text exactly when the policy is falsy |
| Backtrace.InspectBacktraceLines | lib/markdown_logging_proxy/markdown_logger.rb:26-36 | read line by line: an empty line, "Backtrace:", an empty line, then one bullet per kept frame in order (all frames under true, the matching ones under a Regexp, none under any other truthy value) |
| Backtrace.DisplayBacktrace | lib/markdown_logging_proxy/proxy.rb:68-75 | `__display_backtrace` gives text exactly when the policy is true or a Regexp |
| Formatter.MarkdownFormatShape | lib/markdown_logging_proxy/markdown_logger.rb:55-60 | every formatted entry starts with exactly heading-level '#', then a space and the severity name, and ends with "\n\n" |
| Formatter.PidFormatShape | lib/markdown_logging_proxy/proxy.rb:120-126 | the same heading shape for the formatter the older Proxy installs |
| Sink.LoggerInstance | lib/markdown_logging_proxy/markdown_logger.rb:41-47 | a Logger is passed through as it is; any other location gets a new, empty Logger |
| Logging.MarkdownLogger.constructor | lib/markdown_logging_proxy/markdown_logger.rb:10-15 | a new MarkdownLogger has heading level 1, the given backtrace policy and creation time, and the Logger of its location, on which its own formatter now replaces any other; an existing Logger keeps what it has written |
| Logging.Send | lib/markdown_logging_proxy/markdown_logger.rb:19 | a Logger call appends one entry with the severity and message, at the heading its installed formatter reads when it runs |
| Logging.MarkdownLogger.Log | lib/markdown_logging_proxy/markdown_logger.rb:17-20 | `log` sets the heading level first, then the Logger appends one entry with the severity and message at the heading its installed formatter reads: the new level when that formatter is this logger's, the installer's otherwise |
| Logging.MarkdownLogger.LogAtDefault | lib/markdown_logging_proxy/markdown_logger.rb:17-20 | `log` without a heading sets heading 3, and the entry is written as `log`'s is, through the installed formatter |
| Logging.ShownKeeps | lib/markdown_logging_proxy/markdown_logger.rb:49-58 | through another's formatter a logger's entries keep their order, severities and messages; only the heading is the installer's |
| Logging.CountShown | lib/markdown_logging_proxy/markdown_logger.rb:49-58 | whichever formatter is installed, the log holds as many entries of each kind as were logged |
| Logging.LastInstallWins | lib/markdown_logging_proxy/markdown_logger.rb:49-53 | of two MarkdownLoggers over one Logger, the one that installed its formatter last decides the heading of both loggers' entries |
| Logging.UtilsFormatterWins | lib/markdown_logging_proxy/utils.rb:16-21 | once Utils' formatter is installed on a MarkdownLogger's Logger, that logger's entries carry the Utils module's heading level |
| Logging.MarkdownLogger.InspectBacktrace | lib/markdown_logging_proxy/markdown_logger.rb:22-23 | the logger's inspect_backtrace gives nil exactly when its policy is falsy |
| Logging.FormattedIsHeading | lib/markdown_logging_proxy/markdown_logger.rb:55-60 | every text the logger writes is a markdown heading at the entry's level, naming its severity, ending in a blank line |
| Logging.Build | lib/markdown_logging_proxy/markdown_logger.rb:3-6 | build returns a MarkdownLogger argument itself, so nested proxies share one log, heading and creation time; any other location gets a new MarkdownLogger at heading 1 whose formatter the Logger now runs |
| Target.BlockAnswersReachTarget | lib/markdown_logging_proxy/tracer.rb:88-94 | when the block never raises, the target gets back exactly the block's answers, one per yield, in order |
| Target.BlockErrorEndsCall | lib/markdown_logging_proxy/tracer.rb:80-95 | when the block raises, the call ends with that exception on the first yield that raises, and every earlier yield returned |
| Tracing.TargetOf | dist/markdown_logging_proxy.rb:102-103 | the target is the positional argument if truthy, else `target:` if truthy; otherwise ArgumentError "Missing required proxy target" |
| Tracing.Proxy.Create | dist/markdown_logging_proxy.rb:93-121 | Proxy.new checks the target before anything else and changes nothing when it raises; then it builds or reuses the logger (a new one installs its formatter on the Logger) and a Tracer holding ignore, proxy_response, overwrite and backtrace |
| Tracing.Proxy.MethodMissing | dist/markdown_logging_proxy.rb:123-125 | method_missing traces the call with the same name, arguments and block; log, heading and reply are Tracer#trace's, and a proxied response's Proxy keeps this one's logger, ignore, proxy_response and options |
| Tracing.Tracer.LogCallSignature | lib/markdown_logging_proxy/tracer.rb:41-53 | the "Calling" entry at heading 1 for a method that is not ignored, nothing for an ignored one |
| Tracing.Tracer.CallWrapper | lib/markdown_logging_proxy/tracer.rb:80-95 | one yield through the wrapper: "Yield" at heading 2, the block, then "Response from block" at heading 3 if it returned; the block's answer is passed on unchanged |
| Tracing.Tracer.YieldEach | lib/markdown_logging_proxy/tracer.rb:76-96 | the target yields each of its argument arrays through the wrapper until the block raises; the log gains the wrapper's entries for exactly the yields that happened |
| Tracing.Tracer.CallTarget | lib/markdown_logging_proxy/tracer.rb:56 | without a block no wrapper is passed and nothing is logged; with one, YieldEach |
| Tracing.Tracer.LogResponse | lib/markdown_logging_proxy/tracer.rb:109-116 | one "response" entry at heading 2, and nothing for an ignored method |
| Tracing.Tracer.LogAndReraiseError | lib/markdown_logging_proxy/tracer.rb:98-107 | one "Error" entry at heading 2, then the same exception object is raised |
| Tracing.Tracer.LogAndProxyResponse | dist/markdown_logging_proxy.rb:182-201 | the response entry unless ignored; under proxy_response? the proxied response entry at heading 3 and a new Proxy over the response with the same logger, ignore, proxy_response and options |
| Tracing.Tracer.Conclude | lib/markdown_logging_proxy/tracer.rb:20-25 | after the target answers: the response path for a value; the error entry and re-raise for a StandardError; any other exception passes through |
| Tracing.Tracer.Trace | lib/markdown_logging_proxy/tracer.rb:20-25 | Tracer#trace appends exactly the protocol's entries as the installed formatter shows them (as logged when it is the logger's own), leaves the heading of the last one, and answers the protocol's reply |
| Tracing.CallingLoggedFirst | lib/markdown_logging_proxy/tracer.rb:21-22 | a method that is not ignored gets exactly one "Calling" entry, the first of the call, at heading 1; an ignored one gets none |
| Tracing.ResponseLoggedOnce | lib/markdown_logging_proxy/tracer.rb:56-57 | exactly one response entry when the method is not ignored and the target returned, none otherwise |
| Tracing.ResponseAfterBlock | lib/markdown_logging_proxy/tracer.rb:111 | that response entry is at heading 2, right after the "Calling" entry and the block's entries |
| Tracing.IgnoreOnlySuppresses | lib/markdown_logging_proxy/tracer.rb:21-22 | ignoring a method removes exactly its "Calling" and response entries: block entries, proxied response and errors stay, and the reply is the same |
| Tracing.ReplyIgnoresIgnore | lib/markdown_logging_proxy/tracer.rb:57-58 | the ignore list never changes what a call answers |
| Tracing.PassThrough | lib/markdown_logging_proxy/tracer.rb:58 | when proxy_response? is false, the reply is the target's own value or exception, and no proxied response is logged |
| Tracing.RespondProxies | dist/markdown_logging_proxy.rb:185-200 | under proxy_response?, one proxied response entry; a truthy value comes back as a new Proxy over it; a falsy one ends in the ArgumentError of dist's Proxy.new (dist/markdown_logging_proxy.rb:102-103), logged and raised |
| Tracing.ProxiedReply | dist/markdown_logging_proxy.rb:182-201 | the same for a whole call whose target returned |
| Tracing.ErrorReraised | lib/markdown_logging_proxy/tracer.rb:23-24 | an exception from the target is raised again as the same object; it is logged once, as the last entry at heading 2, exactly when it is a StandardError, ignored method or not |
| Tracing.YieldEntriesAt | lib/markdown_logging_proxy/tracer.rb:80-95 | entry 2k of the wrapper's log is the "Yield" of yield k, entry 2k+1 its block response |
| Tracing.BlockLog | lib/markdown_logging_proxy/tracer.rb:76-96 | the wrapper logs each argument array the target yields, in order, with the block's answer; two entries per yield when the block never raises |
| Tracing.ChompHeredoc | lib/markdown_logging_proxy/tracer.rb:43 | `chomp` on a heredoc removes its final newline and nothing more |
| Tracing.CallingChomp | lib/markdown_logging_proxy/tracer.rb:43-52 | the chomped "Calling" heredoc is the modelled "Calling" text |
| Tracing.ResponseChomp | lib/markdown_logging_proxy/tracer.rb:111-115 | the chomped response heredoc is the modelled text |
| Tracing.ProxiedChomp | lib/markdown_logging_proxy/tracer.rb:59-67 | the chomped proxied-response heredoc is the modelled text |
| Tracing.YieldChomp | lib/markdown_logging_proxy/tracer.rb:81-87 | the chomped "Yield" heredoc is the modelled text |
| Tracing.BlockResponseChomp | lib/markdown_logging_proxy/tracer.rb:89-93 | the chomped "Response from block" heredoc is the modelled text |
| Tracing.ErrorChomp | lib/markdown_logging_proxy/tracer.rb:99-105 | the chomped "Error" heredoc is the modelled text |
| Tracing.BlockGivenShown | lib/markdown_logging_proxy/tracer.rb:50 | the "Calling" entry tells whether a block was given |
| Legacy.UniqMembers | lib/markdown_logging_proxy/proxy.rb:20 | `uniq` keeps every element and only those, each once |
| Legacy.UniqOfDistinct | lib/markdown_logging_proxy/proxy.rb:20 | `uniq` leaves a list without duplicates unchanged |
| Legacy.UniqIdempotent | lib/markdown_logging_proxy/proxy.rb:20 | `uniq` applied twice is `uniq` applied once |
| Legacy.EffectiveIgnore | lib/markdown_logging_proxy/proxy.rb:20 | the effective ignore list holds exactly the ignore and proxy_response methods, each once |
| Legacy.LogWritesOnce | lib/markdown_logging_proxy/proxy.rb:77-81 | `__log` leaves an ignored method's log and heading alone; otherwise it sets the heading and writes one entry at the heading the formatter reads, or raises TypeError when that is nil; with its own Logger, never |
| Legacy.WrapperAnswers | lib/markdown_logging_proxy/proxy.rb:98-113 | the wrapper answers what the block answers when the formatter reads a heading, and raises TypeError before the block runs when it reads nil |
| Legacy.NoticeShape | lib/markdown_logging_proxy/proxy.rb:83-93 | the proxied-response notice is written only for a proxy_response method, and raises exactly when the formatter reads nil |
| Legacy.LegacyProxy.constructor | lib/markdown_logging_proxy/proxy.rb:11-30 | the ignore list becomes the duplicate-free union with proxy_response; without a logger a fresh one is set up whose formatter reads this Proxy's heading, still nil |
| Legacy.LegacyProxy.Write | lib/markdown_logging_proxy/proxy.rb:120-126 | a Logger write formats at the owning Proxy's heading: one entry, or TypeError and no entry when that heading is nil |
| Legacy.LegacyProxy.Log | lib/markdown_logging_proxy/proxy.rb:77-81 | `__log` changes the log, heading and raised exception exactly as LogSpec says |
| Legacy.LegacyProxy.CallWrapper | lib/markdown_logging_proxy/proxy.rb:98-113 | one yield: "Yield", the block, "Response from block"; both entries through Logger#info at the shown heading; the answer is the wrapper's |
| Legacy.LegacyProxy.YieldEach | lib/markdown_logging_proxy/proxy.rb:95-114 | the target yields through the wrapper until it raises; the log gains the wrapper's entries for exactly those yields, and the heading is unchanged |
| Legacy.LegacyProxy.CallTarget | lib/markdown_logging_proxy/proxy.rb:50 | `public_send` with `__proxy_block`: no wrapper without a block |
| Legacy.LegacyProxy.Rescue | lib/markdown_logging_proxy/proxy.rb:57-65 | a StandardError is logged through `__log` at heading 3 and raised again, or the TypeError of that log is raised; other exceptions pass through |
| Legacy.LegacyProxy.Respond | lib/markdown_logging_proxy/proxy.rb:83-93 | `__proxy_response` and the response log; a proxied response becomes a new Proxy that shares the Logger, with empty ignore and proxy_response and the default backtrace, whose formatter reads the heading of the Proxy that set up the Logger |
| Legacy.LegacyProxy.Answer | lib/markdown_logging_proxy/proxy.rb:50-65 | after the target answers: the rescue clause for an exception, the response path for a value |
| Legacy.LegacyProxy.TraceMethod | lib/markdown_logging_proxy/proxy.rb:38-66 | `__trace_method` appends exactly LegacyTrace's entries, leaves its heading, and answers its reply |
| Legacy.LegacyProxy.MethodMissing | lib/markdown_logging_proxy/proxy.rb:32-34 | method_missing traces the call with the same name, arguments and block |
| Legacy.IgnoredTrace | lib/markdown_logging_proxy/proxy.rb:78 | for an ignored method: only the wrapper's entries and, for a proxy_response method, the notice; the target's exception is re-raised unchanged; the notice raises TypeError when the formatter reads nil |
| Legacy.IgnoredSilent | lib/markdown_logging_proxy/proxy.rb:57-65 | an ignored method (every proxy_response method is one) gets no "Calling", response or "Error" entry, and at most one notice |
| Legacy.IgnoredBlockRaisesTypeError | lib/markdown_logging_proxy/proxy.rb:99 | on a Proxy that has not logged yet, an ignored method whose target yields ends in TypeError and writes nothing |
| Legacy.OwnLoggerCall | lib/markdown_logging_proxy/proxy.rb:39-48 | with its own Logger, a method that is not ignored gets exactly one "Calling" entry, the first, at heading 2; the block is wrapped at heading 2 |
| Legacy.OwnLoggerReturn | lib/markdown_logging_proxy/proxy.rb:50-56 | with its own Logger, a returned value ends the log with the response at heading 3; the reply is the value, or a new Proxy over it for a proxy_response method |
| Legacy.OwnLoggerError | lib/markdown_logging_proxy/proxy.rb:57-65 | with its own Logger, the target's exception is raised again unchanged; a StandardError is logged last at heading 3; anything else leaves no "Error" entry and heading 2 |
| Legacy.OwnerHeadingThroughout | lib/markdown_logging_proxy/proxy.rb:92 | on a Proxy sharing a Logger another Proxy set up, once that Proxy's heading is h, every entry of a call is at h, whatever its own `__log` sets; nothing raises TypeError, and the reply follows the target |
| Utils.LevelOrDefault | lib/markdown_logging_proxy/utils.rb:4 | an unset heading level reads as 1; a set one reads as itself |
| Utils.HeadingSetting.constructor | lib/markdown_logging_proxy/utils.rb:3-5 | the heading level is 1 while it was never set |
| Utils.HeadingSetting.SetHeadingLevel | lib/markdown_logging_proxy/utils.rb:7-9 | after `heading_level = n` the heading level is n; assigning nil brings back 1 |
| Utils.CreateLogger | lib/markdown_logging_proxy/utils.rb:11-21 | a Logger is returned as it is, keeping what it has written, and any other location gets a new Logger; either way the Utils formatter replaces the one it had |
| Utils.FormattedAtLevel | lib/markdown_logging_proxy/utils.rb:18 | the formatted entry starts with exactly heading-level '#' (one while unset), a space and the severity, and ends with "\n\n" |

## Left out

- The Logger's sinks (STDOUT, files, IO) are not modelled. A Logger is the list of entries handed to its formatter, and Formatter gives the text of each. A Logger's severity `level` is not modelled either: every message is formatted and written, while Ruby's `Logger#add` drops a message below the level of a Logger passed in as the location.
- Time.now, elapsed.round(5), time.iso8601 and Process.pid are not modelled, because they are clock and environment readings. The formatter takes them as text.
- pretty_inspect is not modelled, because it is a library call: a Value carries its output as given. Kernel#caller is not modelled either: the frames are a parameter.
- A Regexp `backtrace:` is modelled as its match test, and Regexp matching itself is not modelled. The default `/projects/` is "contains projects".
- Ruby's method lookup is not modelled: public_send is a World, and `overwrite` is kept only as a list of names.
- The `define_method` loops are not modelled. In the older Proxy (proxy.rb:25-29) the loop calls `define_method` on the instance, where Ruby provides no such method, so the call itself reaches method_missing. There it is traced during construction (a "Calling `define_method`" entry at heading 2) and, for most targets, logged and raised out of `Proxy.new` as NoMethodError. The model ignores `overwrite` in the older Proxy's constructor instead: `Legacy.LegacyProxy.constructor`'s heading and empty log hold in Ruby only for an empty `overwrite`.
- lib's Tracer runs the block with instance_exec (tracer.rb:88), in the Tracer's own context. The model runs it as a plain call, as dist does, because the receiver of the block is not modelled.
- The Tracer's `proxy:` back-reference is not modelled, because it is only read by attr_reader.
- lib's tracer.rb calls a two-argument `inspect_object` that lib's markdown_logger.rb does not define. lib/markdown_logging_proxy.rb is only a require list. Neither is part of this model: rendering is the one-argument dist `inspect_object`.
- Re-entrant calls are not modelled: a block that calls the Proxy again.
- A target that rescues its block's exception is not modelled: an exception from the block ends the call.
- Target.Block: non-local exits that are not exceptions are not modelled: `break` or `return` in the caller's block, and `throw` from the block or the target. In Ruby these unwind through the wrapper and past `rescue StandardError` (dist/markdown_logging_proxy.rb:150, tracer.rb:23, proxy.rb:57) with nothing more logged: `proxy.each { |x| break x }` writes "Calling" and the "Yield" entries but no "Response from block" for the breaking step, no response and no "Error" entry, and answers x, with no Proxy even under proxy_response. An Outcome only returns or raises, so the response and error lemmas say nothing about such calls.
- lib's tracer.rb:68 calls `Proxy.new`, and in lib that is the older Proxy of proxy.rb, loaded by lib/markdown_logging_proxy.rb:9. It has no target check and passes the MarkdownLogger to `Logger.new` as its location. The model of the proxied response follows dist, where `Proxy.new` is the Proxy of the same file (dist/markdown_logging_proxy.rb:93-121).
- The tracing code's own exceptions all share the object_id `Env.freshId`, so two of them in one call are not told apart: on an older Proxy whose formatter reads nil, the TypeError of the "Calling" `__log` (proxy.rb:39) is followed by the TypeError of the rescue's `__log` (proxy.rb:58), and both carry that id.
- Legacy.LegacyProxy.constructor: a caller-supplied Logger is modelled only as one set up by another older Proxy (`requires logger.Some? ==> logger.value.owner != null`). A plain Ruby Logger with its own formatter is not modelled.
- Names are strings, so Ruby's distinction between a Symbol and a String is lost: `['upcase'].member?(:upcase)` is false in Ruby, while the model treats both as the same name. A nil entry in an ignore list is not modelled either. The notice's `__log` passes a nil method name, which the model treats as never ignored.
- Tracing.CallingChomp: requires that the backtrace text does not end in a carriage return, because `chomp` would then remove "\r\n".
- Utils.HeadingSetting.SetHeadingLevel: levels are natural numbers. A negative or other non-integer level, for which Ruby's `'#' *` raises, is not modelled.
- The `location:` option of the older Proxy is not modelled: the Logger it opens is a fresh, empty one.
- Target.Script: a call's yield argument arrays are fixed when the call starts, so a target whose later yields, or whose number of yields, depend on the block's answers (`find`, `any?`, `take_while`, `inject`) is not modelled. A Block is a function of its arguments, so a block with state of its own is not modelled either.
- Logging.MarkdownLogger.Log: an entry records the heading its formatter read, not which formatter wrote it. On a Logger whose last formatter is Utils', the text is in Utils' format (`Formatter.PidFormat`), not `Formatter.MarkdownFormat`. Another MarkdownLogger's formatter counts the elapsed time from that logger's `created_at`. The clock is not modelled either way.
- Logging.MarkdownLogger.LogAtDefault: the same as `log`: the entry does not record which formatter wrote it.
