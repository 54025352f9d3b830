/**
 * The traced object, seen from outside: what one of its methods does when
 * called — the argument arrays it yields to the block, in order, and what it
 * returns or raises once the block has answered them.
 *
 * Ruby's method lookup on the target (public_send) is not modelled; a World
 * says, for every receiver, method name, argument array and "block given?",
 * which Script the call runs.
 */
module Target {
  import opened Wrappers
  import opened Inspector

  /** What a call returns, or the exception it raises. */
  datatype Outcome = Returns(value: Value) | Raises(error: Value)

  /** A block: from the array of arguments it is yielded to what it returns
      or raises. */
  type Block = Value -> Outcome

  /** One method call on the target: the argument arrays it yields, then its
      outcome as a function of the block's answers. The yields happen only
      when a block is given; without one, the outcome on no answers is what
      the method does (a `yield` without a block raising LocalJumpError
      included). */
  datatype Script = Script(yieldArgs: seq<Value>, finish: seq<Value> -> Outcome)

  /** Receiver, method name, argument array, block given? */
  type World = (Value, string, Value, bool) -> Script

  /** One yield: what was yielded and what the block answered. */
  datatype Step = Step(args: Value, answer: Outcome)

  /** The block raised on the last step, which ends the call. */
  predicate BlockRaised(steps: seq<Step>) {
    steps != [] && steps[|steps| - 1].answer.Raises?
  }

  /** The first n yields of a call, as far as they happen: each argument
      array in turn, until the block raises. */
  function StepsUpTo(yieldArgs: seq<Value>, n: nat, blk: Block): (r: seq<Step>)
    requires n <= |yieldArgs|
    ensures |r| <= n
    ensures n > 0 ==> r != []
    ensures !BlockRaised(r) ==> |r| == n
    decreases n
  {
    if n == 0 then []
    else
      var before := StepsUpTo(yieldArgs, n - 1, blk);
      if BlockRaised(before) then before
      else before + [Step(yieldArgs[n - 1], blk(yieldArgs[n - 1]))]
  }

  /** The yields that happen in the whole call. */
  function Steps(yieldArgs: seq<Value>, blk: Block): seq<Step> {
    StepsUpTo(yieldArgs, |yieldArgs|, blk)
  }

  /** Every step yields the script's argument array at its position and
      carries the block's own answer to it, and only the last step can have
      raised. */
  lemma {:induction false} StepsUpToFollowScript(yieldArgs: seq<Value>, n: nat, blk: Block)
    requires n <= |yieldArgs|
    ensures forall k :: 0 <= k < |StepsUpTo(yieldArgs, n, blk)| ==>
      StepsUpTo(yieldArgs, n, blk)[k] == Step(yieldArgs[k], blk(yieldArgs[k]))
    ensures forall k :: 0 <= k < |StepsUpTo(yieldArgs, n, blk)| - 1 ==> StepsUpTo(yieldArgs, n, blk)[k].answer.Returns?
    decreases n
  {
    if n > 0 {
      StepsUpToFollowScript(yieldArgs, n - 1, blk);
    }
  }

  lemma StepsFollowScript(yieldArgs: seq<Value>, blk: Block)
    ensures forall k :: 0 <= k < |Steps(yieldArgs, blk)| ==>
      Steps(yieldArgs, blk)[k] == Step(yieldArgs[k], blk(yieldArgs[k]))
    ensures forall k :: 0 <= k < |Steps(yieldArgs, blk)| - 1 ==> Steps(yieldArgs, blk)[k].answer.Returns?
  {
    StepsUpToFollowScript(yieldArgs, |yieldArgs|, blk);
  }

  /** Once the block has raised, no further yield happens. */
  lemma {:induction false} StepsStopAtRaise(yieldArgs: seq<Value>, i: nat, n: nat, blk: Block)
    requires i <= n <= |yieldArgs|
    requires BlockRaised(StepsUpTo(yieldArgs, i, blk))
    ensures StepsUpTo(yieldArgs, n, blk) == StepsUpTo(yieldArgs, i, blk)
    decreases n - i
  {
    if i < n {
      StepsStopAtRaise(yieldArgs, i, n - 1, blk);
    }
  }

  /** What the block returned, in order (a step on which it raised gives no
      answer). */
  function Answers(steps: seq<Step>): (r: seq<Value>)
    ensures |r| <= |steps|
    decreases |steps|
  {
    if steps == [] then []
    else
      var last := steps[|steps| - 1];
      Answers(steps[..|steps| - 1]) + (if last.answer.Returns? then [last.answer.value] else [])
  }

  /** When no step raised, there is one answer per step. */
  lemma {:induction false} AnswersOfReturns(steps: seq<Step>)
    requires forall k :: 0 <= k < |steps| ==> steps[k].answer.Returns?
    ensures |Answers(steps)| == |steps|
    ensures forall k :: 0 <= k < |steps| ==> Answers(steps)[k] == steps[k].answer.value
    decreases |steps|
  {
    if steps != [] {
      AnswersOfReturns(steps[..|steps| - 1]);
    }
  }

  /** How the call ends: the exception of a block that raised (the target is
      taken not to rescue it), otherwise the script's outcome on the block's
      answers. */
  function Run(script: Script, blk: Option<Block>): Outcome {
    if blk.None? then script.finish([])
    else
      var steps := Steps(script.yieldArgs, blk.value);
      if BlockRaised(steps) then steps[|steps| - 1].answer
      else script.finish(Answers(steps))
  }

  /** The target gets back exactly what the block returned, one answer per
      yield, in order. */
  lemma BlockAnswersReachTarget(script: Script, blk: Block)
    requires !BlockRaised(Steps(script.yieldArgs, blk))
    ensures |Answers(Steps(script.yieldArgs, blk))| == |script.yieldArgs|
    ensures forall k :: 0 <= k < |script.yieldArgs| ==>
      Returns(Answers(Steps(script.yieldArgs, blk))[k]) == blk(script.yieldArgs[k])
    ensures Run(script, Some(blk)) == script.finish(Answers(Steps(script.yieldArgs, blk)))
  {
    StepsFollowScript(script.yieldArgs, blk);
    AnswersOfReturns(Steps(script.yieldArgs, blk));
  }

  /** When the block raises, the first yield it raises on ends the call
      with that very exception. */
  lemma BlockErrorEndsCall(script: Script, blk: Block)
    requires BlockRaised(Steps(script.yieldArgs, blk))
    ensures forall k :: 0 <= k < |Steps(script.yieldArgs, blk)| - 1 ==> blk(script.yieldArgs[k]).Returns?
    ensures Run(script, Some(blk)) == blk(script.yieldArgs[|Steps(script.yieldArgs, blk)| - 1])
    ensures Run(script, Some(blk)).Raises?
  {
    StepsFollowScript(script.yieldArgs, blk);
  }
}
