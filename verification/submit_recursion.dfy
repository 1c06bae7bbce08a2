/**
 * The two-argument submit as its body is written: once the guard passes, it
 * calls itself with the same arguments instead of the engine's submit, so the
 * call only ends when the stack runs out. `DiscreteBroker.Submit` is the
 * evidently intended behaviour (the guard, then the engine's enqueue).
 */
module SubmitRecursion {
  import opened Wrappers
  import opened Tasks
  import opened DiscreteBroker

  /** How a call of the self-calling submit ends. */
  datatype AsWrittenError = Rejected(error: BrokerError) | StackOverflow

  /**
   * The self-calling submit; `depth` is the number of stack frames still
   * available to the call.
   */
  function SubmitAsWritten(b: Broker, task: Task, priority: bool, depth: nat): (r: Result<Enqueued, AsWrittenError>)
    ensures r == Failure(StackOverflow) || r == Failure(Rejected(AnonymousExternal))
    decreases depth
  {
    if b.user.None? && task.ExternalRef() != "" then
      Failure(Rejected(AnonymousExternal))
    else if depth == 0 then
      Failure(StackOverflow)
    else
      SubmitAsWritten(b, task, priority, depth - 1)
  }

  /**
   * However deep the stack, the self-calling submit enqueues nothing: a task
   * the intended submit would enqueue ends in a stack overflow, and a task it
   * would reject is rejected with the same error.
   */
  lemma {:induction false} SubmitAsWrittenNeverEnqueues(b: Broker, task: Task, priority: bool, depth: nat)
    ensures Submit(b, task, priority).result.Success? ==>
              SubmitAsWritten(b, task, priority, depth) == Failure(StackOverflow)
    ensures Submit(b, task, priority).result.Failure? ==>
              SubmitAsWritten(b, task, priority, depth)
              == Failure(Rejected(Submit(b, task, priority).result.error))
    decreases depth
  {
    if depth > 0 {
      SubmitAsWrittenNeverEnqueues(b, task, priority, depth - 1);
    }
  }
}
