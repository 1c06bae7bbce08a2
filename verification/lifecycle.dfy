/**
 * Token lifecycle: runs of engine dispatches and broker callbacks.
 *
 * Dispatch belongs to the engine base class, whose code is not part of this
 * model; `EngineAcquire` states what the callback relies on: a dispatched task
 * takes one free token out of the pool and the task-to-token map records it.
 * The token the engine picks is a parameter.
 */
module Lifecycle {
  import opened Wrappers
  import opened TokenPool
  import opened DiscreteBroker

  /** Why a run stops early: the chosen token was not free, or a callback threw. */
  datatype RunError = TokenUnavailable | CallbackFailed(error: BrokerError)

  /** A dispatch of `task` holding `token`, or the completion callback of `task`. */
  datatype Event = Acquire(task: TaskId, token: int) | Release(task: TaskId, result: TaskResult)

  /** The engine's dispatch as the callback expects it: one free token moves from the pool to the map. */
  function EngineAcquire(b: Broker, task: TaskId, token: int): (r: Result<Broker, RunError>)
    ensures r.Success? <==> token in b.pool
    ensures r.Success? ==>
              && r.value.pool + multiset{token} == b.pool
              && r.value.tokens == b.tokens[task := token]
              && r.value.capacity == b.capacity
  {
    if token in b.pool then
      Success(b.(pool := b.pool - multiset{token}, tokens := b.tokens[task := token]))
    else
      Failure(TokenUnavailable)
  }

  function Step(b: Broker, e: Event): Result<Broker, RunError> {
    match e
    case Acquire(task, token) => EngineAcquire(b, task, token)
    case Release(task, result) =>
      var reply := Callback(b, task, result);
      if reply.result.Success? then Success(reply.broker) else Failure(CallbackFailed(reply.result.error))
  }

  /** Apply the events in order, stopping at the first failure. */
  function Run(b: Broker, events: seq<Event>): Result<Broker, RunError>
    decreases |events|
  {
    if events == [] then Success(b)
    else
      match Step(b, events[0])
      case Failure(e) => Failure(e)
      case Success(next) => Run(next, events[1..])
  }

  /**
   * Every task releases only while it holds a token, acquires only while it
   * holds none, and nothing is still held at the end; `open` is the set of
   * tasks holding a token before the first event.
   */
  predicate Matched(events: seq<Event>, open: set<TaskId>)
    decreases |events|
  {
    if events == [] then open == {}
    else
      match events[0]
      case Acquire(task, _) => task !in open && Matched(events[1..], open + {task})
      case Release(task, _) => task in open && Matched(events[1..], open - {task})
  }

  /** A loan: an in-flight task and the resource token it holds. */
  type Loan = (TaskId, int)

  /** The tasks that hold a token under `loans`. */
  function Borrowers(loans: seq<Loan>): (tasks: set<TaskId>)
    ensures tasks == {} <==> loans == []
  {
    if loans == [] then {} else assert loans[0].0 in {loans[0].0}; {loans[0].0} + Borrowers(loans[1..])
  }

  /** The tokens held under `loans`, with multiplicity. */
  function Lent(loans: seq<Loan>): multiset<int> {
    if loans == [] then multiset{} else multiset{loans[0].1} + Lent(loans[1..])
  }

  /** No task holds two loans. */
  predicate DistinctBorrowers(loans: seq<Loan>) {
    loans == [] || (loans[0].0 !in Borrowers(loans[1..]) && DistinctBorrowers(loans[1..]))
  }

  /** The broker's task-to-token map records every loan. */
  predicate Recorded(tokens: map<TaskId, int>, loans: seq<Loan>) {
    loans == [] || (loans[0].0 in tokens && tokens[loans[0].0] == loans[0].1 && Recorded(tokens, loans[1..]))
  }

  /** The loans without the one of `task`. */
  function Repay(loans: seq<Loan>, task: TaskId): seq<Loan> {
    if loans == [] then []
    else if loans[0].0 == task then loans[1..]
    else [loans[0]] + Repay(loans[1..], task)
  }

  /** Recording a new borrower in the map keeps every existing loan recorded. */
  lemma {:induction false} RecordedAfterUpdate(tokens: map<TaskId, int>, loans: seq<Loan>, task: TaskId, token: int)
    requires Recorded(tokens, loans) && task !in Borrowers(loans)
    ensures Recorded(tokens[task := token], loans)
  {
    if loans != [] {
      RecordedAfterUpdate(tokens, loans[1..], task, token);
    }
  }

  /** A loan put in front of others: the first loan and the rest, as each definition reads them. */
  lemma Prepend(loan: Loan, loans: seq<Loan>)
    ensures ([loan] + loans) != [] && ([loan] + loans)[0] == loan && ([loan] + loans)[1..] == loans
  {
  }

  /** Repaying the loan of a borrower takes exactly its recorded token out of the lent tokens. */
  lemma {:induction false} RepayLent(tokens: map<TaskId, int>, loans: seq<Loan>, task: TaskId)
    requires task in Borrowers(loans) && Recorded(tokens, loans)
    ensures task in tokens
    ensures Lent(loans) == Lent(Repay(loans, task)) + multiset{tokens[task]}
  {
    var rest := loans[1..];
    if loans[0].0 != task {
      RepayLent(tokens, rest, task);
      Prepend(loans[0], Repay(rest, task));
    }
  }

  /**
   * Repaying the loan of a borrower takes exactly that task out of the
   * borrowers and keeps the remaining loans distinct and recorded.
   */
  lemma {:induction false} RepayBorrowers(tokens: map<TaskId, int>, loans: seq<Loan>, task: TaskId)
    requires task in Borrowers(loans) && DistinctBorrowers(loans) && Recorded(tokens, loans)
    ensures Borrowers(Repay(loans, task)) == Borrowers(loans) - {task}
    ensures DistinctBorrowers(Repay(loans, task)) && Recorded(tokens, Repay(loans, task))
  {
    var rest := loans[1..];
    if loans[0].0 != task {
      RepayBorrowers(tokens, rest, task);
      Prepend(loans[0], Repay(rest, task));
    }
  }

  /**
   * Conservation invariant of a run in progress: the map records the loans of
   * distinct in-flight tasks, the free tokens plus the lent ones are exactly
   * `init`, and `init` fits within the pool's bound.
   */
  ghost predicate Conserving(b: Broker, loans: seq<Loan>, init: multiset<int>) {
    && Recorded(b.tokens, loans)
    && DistinctBorrowers(loans)
    && b.pool + Lent(loans) == init
    && |init| <= b.capacity
  }

  /** A matched run that starts with a dispatch of a free token continues from the dispatched broker with the invariant. */
  lemma AcquireStep(b: Broker, events: seq<Event>, loans: seq<Loan>, init: multiset<int>)
    returns (next: Broker, loans': seq<Loan>)
    requires events != [] && events[0].Acquire? && events[0].token in b.pool
    requires Matched(events, Borrowers(loans))
    requires Conserving(b, loans, init)
    ensures Run(b, events) == Run(next, events[1..])
    ensures Matched(events[1..], Borrowers(loans')) && Conserving(next, loans', init)
  {
    var task, token := events[0].task, events[0].token;
    next := EngineAcquire(b, task, token).value;
    loans' := [(task, token)] + loans;
    Prepend((task, token), loans);
    assert Borrowers(loans') == Borrowers(loans) + {task};
    RecordedAfterUpdate(b.tokens, loans, task, token);
  }

  /** A matched run that starts with a callback continues from the called-back broker with the invariant. */
  lemma ReleaseStep(b: Broker, events: seq<Event>, loans: seq<Loan>, init: multiset<int>)
    returns (next: Broker, loans': seq<Loan>)
    requires events != [] && events[0].Release?
    requires Matched(events, Borrowers(loans))
    requires Conserving(b, loans, init)
    ensures Callback(b, events[0].task, events[0].result).result.Success?
    ensures Run(b, events) == Run(next, events[1..])
    ensures Matched(events[1..], Borrowers(loans')) && Conserving(next, loans', init)
  {
    var task, result := events[0].task, events[0].result;
    RepayLent(b.tokens, loans, task);
    RepayBorrowers(b.tokens, loans, task);
    loans' := Repay(loans, task);
    assert |b.pool| < b.capacity by {
      assert |b.pool| + |Lent(loans)| == |init|;
    }
    next := Callback(b, task, result).broker;
  }

  /**
   * The free tokens plus the lent ones stay equal to `init`. Hence no
   * callback of a matched run fails, and the run ends with the pool equal to
   * `init`, unless a dispatch names a token that is not free.
   */
  lemma {:induction false} RunConserves(b: Broker, events: seq<Event>, loans: seq<Loan>, init: multiset<int>)
    requires Matched(events, Borrowers(loans))
    requires Conserving(b, loans, init)
    ensures Run(b, events) == Failure(TokenUnavailable)
            || (Run(b, events).Success? && Run(b, events).value.pool == init)
    decreases |events|
  {
    if events == [] {
      assert loans == [];
    } else if events[0].Acquire? && events[0].token !in b.pool {
      assert Run(b, events) == Failure(TokenUnavailable);
    } else {
      var next, loans';
      if events[0].Acquire? {
        next, loans' := AcquireStep(b, events, loans, init);
      } else {
        next, loans' := ReleaseStep(b, events, loans, init);
      }
      RunConserves(next, events[1..], loans', init);
    }
  }

  /**
   * From a freshly constructed broker, a run in which every task is
   * dispatched and then called back exactly once leaves the pool holding
   * exactly the tokens 0 .. limit-1 again; no callback fails on the way.
   */
  lemma RunRestoresPool(config: Config, events: seq<Event>)
    requires Matched(events, {})
    ensures var b0 := InitialBroker(config);
            var r := Run(b0, events);
            r == Failure(TokenUnavailable)
            || (&& r.Success?
                && r.value.pool == b0.pool
                && forall t :: r.value.pool[t] == if 0 <= t < config.maxConcurrentTaskLimit then 1 else 0)
  {
    var b0 := InitialBroker(config);
    if config.maxConcurrentTaskLimit >= 0 {
      RunConserves(b0, events, [], b0.pool);
    }
  }

  /**
   * The callback leaves the map entry in place, so a second callback for the
   * same task tries to return its token again; on the full pool of a freshly
   * constructed broker the pool refuses it.
   */
  lemma SecondCallbackRejected(config: Config, task: TaskId, token: int, result: TaskResult)
    requires 0 <= token < config.maxConcurrentTaskLimit
    ensures Run(InitialBroker(config), [Acquire(task, token), Release(task, result), Release(task, result)])
            == Failure(CallbackFailed(PoolRejected))
  {
    var b0 := InitialBroker(config);
    var acquire, release := Acquire(task, token), Release(task, result);
    assert token in b0.pool;
    var b1 := EngineAcquire(b0, task, token).value;
    var b2 := Callback(b1, task, result).broker;
    assert Callback(b1, task, result).result.Success?;
    assert |b2.pool| == config.maxConcurrentTaskLimit;
    assert Callback(b2, task, result).result == Failure(PoolRejected);
    assert Run(b2, [release]) == Failure(CallbackFailed(PoolRejected));
    assert Run(b1, [release, release]) == Run(b2, [release]);
    assert Run(b0, [acquire, release, release]) == Run(b1, [release, release]);
  }
}
