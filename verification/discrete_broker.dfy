/**
 * The discrete-task broker: a sequential model of its state (token pool,
 * task-to-token map, authentication) and of the operations it defines on top
 * of the engine base class.
 */
module DiscreteBroker {
  import opened Wrappers
  import opened Tasks
  import opened TokenPool

  /** The identity of a submitted task object; the engine's map is keyed by object identity. */
  type TaskId = nat

  datatype Credentials = Credentials(username: string, password: string)

  /** The authenticated session a login yields; the login call itself is not modelled. */
  datatype User = User(credentials: Credentials)

  /** The client created for the broker's endpoint and concurrency limit. */
  datatype Client = Client(endpoint: string, maxConcurrency: int)

  /** Broker configuration: endpoint, concurrency limit, optional credentials. */
  datatype Config = Config(endpoint: string, maxConcurrentTaskLimit: int,
                           userCredentials: Option<Credentials>)

  /** Outcome of a task execution, handed to the callback; the callback ignores it. */
  datatype TaskResult = Succeeded | Failed(reason: string)

  /** The exceptions the broker's operations throw. */
  datatype BrokerError =
    | RefreshNotSupported
    | AnonymousExternal
    | MissingResourceToken
    | PoolRejected

  /** A submission that passed the broker's guard, handed to the engine's queues. */
  datatype Enqueued = Enqueued(task: Task, priority: bool)

  /**
   * The worker the broker builds for a dispatched task; `engine` is the broker
   * the worker reports back to.
   */
  datatype Worker = DiscreteTaskWorker(task: Task, taskIndex: int, isPriorityTask: bool,
                                       client: Client, resourceToken: int, engine: Broker)

  /**
   * The broker state. `capacity` is the pool bound, `pool` the free resource
   * tokens, `tokens` the task-to-token map, `user` the session (None when anonymous).
   */
  datatype Broker = Broker(client: Client, user: Option<User>, capacity: int,
                           pool: multiset<int>, tokens: map<TaskId, int>)
  {
    predicate Authenticated() {
      user.Some?
    }
  }

  /** The broker after an operation, with the value returned or the exception thrown. */
  datatype Reply<+T> = Reply(broker: Broker, result: Result<T, BrokerError>)

  /** The broker as its constructor leaves it: the reference the constructor method is proved against. */
  function InitialBroker(config: Config): Broker {
    Broker(Client(config.endpoint, config.maxConcurrentTaskLimit),
           if config.userCredentials.Some? then Some(User(config.userCredentials.value)) else None,
           config.maxConcurrentTaskLimit,
           InitialPool(config.maxConcurrentTaskLimit),
           map[])
  }

  /**
   * The constructor: log in when credentials are given, bound the pool by the
   * concurrency limit, then add the tokens 0 .. limit-1 one by one (ignoring
   * whether each add succeeded).
   */
  method NewBroker(config: Config) returns (b: Broker)
    ensures b == InitialBroker(config)
    ensures b.Authenticated() <==> config.userCredentials.Some?
    ensures b.user.None? <==> config.userCredentials.None?
    ensures b.capacity == config.maxConcurrentTaskLimit
    ensures forall t :: b.pool[t] == if 0 <= t < config.maxConcurrentTaskLimit then 1 else 0
    ensures |b.pool| == if config.maxConcurrentTaskLimit > 0 then config.maxConcurrentTaskLimit else 0
    ensures b.tokens == map[]
  {
    var client := Client(config.endpoint, config.maxConcurrentTaskLimit);
    var user: Option<User>;
    if config.userCredentials.Some? {
      user := Some(User(config.userCredentials.value));
    } else {
      user := None;
    }
    var limit := config.maxConcurrentTaskLimit;
    var pool: multiset<int> := multiset{};
    var i := 0;
    while i < limit
      invariant 0 <= i <= if limit > 0 then limit else 0
      invariant pool == InitialPool(i)
    {
      var added := TryAdd(pool, limit, i);
      if added.Some? {
        pool := added.value;
      }
      i := i + 1;
    }
    b := Broker(client, user, limit, pool, map[]);
  }

  /** Reconfiguration is not supported: every refresh throws and changes nothing. */
  function Refresh(b: Broker, config: Config): (r: Reply<()>)
    ensures r.broker == b
    ensures r.result.Failure? && r.result.error == RefreshNotSupported
  {
    Reply(b, Failure(RefreshNotSupported))
  }

  /**
   * Submission with a priority flag: an anonymous broker refuses external
   * tasks before anything is enqueued; every other task is enqueued as given.
   */
  function Submit(b: Broker, task: Task, priority: bool): (r: Reply<Enqueued>)
    ensures r.broker == b
    ensures r.result.Failure? <==> !b.Authenticated() && task.IsExternal()
    ensures r.result.Failure? ==> r.result.error == AnonymousExternal
    ensures r.result.Success? ==> r.result.value == Enqueued(task, priority)
    ensures task.Stored? ==> r.result.Success?
    ensures b.Authenticated() ==> r.result.Success?
  {
    if b.user.None? && task.ExternalRef() != "" then
      Reply(b, Failure(AnonymousExternal))
    else
      Reply(b, Success(Enqueued(task, priority)))
  }

  /** Submission without a priority flag submits as a normal-priority task. */
  function SubmitDefault(b: Broker, task: Task): (r: Reply<Enqueued>)
    ensures r.broker == b
    ensures r.result.Failure? <==> !b.Authenticated() && task.IsExternal()
    ensures r.result.Success? ==> !r.result.value.priority && r.result.value.task == task
  {
    Submit(b, task, false)
  }

  /** The two submission entry points agree: the flagless one is the non-priority one. */
  lemma SubmitDefaultIsNonPriority(b: Broker, task: Task)
    ensures SubmitDefault(b, task) == Submit(b, task, false)
  {
  }

  /** A clone passes or fails the submission guard exactly as its original does. */
  lemma CloneSubmitsAlike(b: Broker, task: Task, priority: bool)
    ensures (Submit(b, CloneTask(task), priority).result.Success?
             <==> Submit(b, task, priority).result.Success?)
  {
  }

  /**
   * The completion callback: look up the task's resource token and add it back
   * to the pool. Throws when the task has no token (the unboxing of the missing
   * value fails) or when the pool refuses the add. The map entry is read, not
   * removed.
   */
  function Callback(b: Broker, task: TaskId, result: TaskResult): (r: Reply<()>)
    ensures r.broker.tokens == b.tokens
    ensures r.broker.capacity == b.capacity && r.broker.user == b.user && r.broker.client == b.client
    ensures r.result.Failure? ==> r.broker == b
    ensures task !in b.tokens ==> r.result == Failure(MissingResourceToken)
    ensures task in b.tokens && |b.pool| >= b.capacity ==> r.result == Failure(PoolRejected)
    ensures r.result.Success? <==> task in b.tokens && |b.pool| < b.capacity
    ensures r.result.Success? ==>
              && |r.broker.pool| == |b.pool| + 1
              && r.broker.pool[b.tokens[task]] == b.pool[b.tokens[task]] + 1
              && r.broker.pool - multiset{b.tokens[task]} == b.pool
  {
    if task !in b.tokens then
      Reply(b, Failure(MissingResourceToken))
    else
      var resourceToken := b.tokens[task];
      match TryAdd(b.pool, b.capacity, resourceToken)
      case None => Reply(b, Failure(PoolRejected))
      case Some(pool) => Reply(b.(pool := pool), Success(()))
  }

  /**
   * The worker for a dispatched task carries the task, index, priority flag,
   * token and calling engine unchanged, with the broker's client.
   */
  function CreateBrokerWorker(b: Broker, task: Task, taskIndex: int, isPriorityTask: bool,
                              resourceToken: int, brokerEngine: Broker): (w: Worker)
    ensures w.task == task && w.taskIndex == taskIndex && w.isPriorityTask == isPriorityTask
    ensures w.resourceToken == resourceToken
    ensures w.client == b.client
    ensures w.engine == brokerEngine
  {
    DiscreteTaskWorker(task, taskIndex, isPriorityTask, b.client, resourceToken, brokerEngine)
  }
}
