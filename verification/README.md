# Discrete-task broker: a Dafny model

This project models the discrete-task broker of the DeployR .NET RBroker framework, `DiscreteTaskBroker`. The broker accepts discrete tasks and throttles them with a bounded pool of integer resource tokens. A task is either an external script named by URL or a repository-stored script named by filename, directory, author and version. The broker returns each finished task's token to the pool.

The model is sequential and functional:

- `Tasks`: the task datatype (`External` | `Stored`) and the broker's clone policy.
- `TokenPool`: the bounded pool as a multiset of ints, and the tokens `0 .. N-1` that construction adds. The pool's add is an explicit assumption: `TryAdd` refuses once the pool already holds `capacity` tokens, where the capacity is the broker's `maxConcurrentTaskLimit`. The pool type lives in the engine base class, which is not part of this model.
- `DiscreteBroker`: the broker state. It holds the client, the session user (`None` when anonymous), the capacity, the pool, and the task-to-token map keyed by task identity. It also holds the constructor, `refresh`, both `submit` overloads, `callback` and `createBrokerWorker`. An operation that changes or may change state returns a `Reply`: the broker afterwards plus either the returned value or the thrown exception. On every exception the broker is the one passed in, because the source throws before it mutates anything.
- `Lifecycle`: runs of dispatches and callbacks, and a conservation theorem. Dispatch belongs to the engine base class and is not part of this model. `EngineAcquire` states the one thing the callback relies on: a dispatched task moves a free token from the pool into the map. The token the engine picks is a parameter.
- `SubmitRecursion`: the two-argument `submit` exactly as written, which calls itself (see Findings).

The code differs from the intended design of the engine in four places. The model follows the code in each place that a value model can express:

- `callback` reads the task's map entry but does not remove it.
- `cloneTask` gives the clone the original's task token, not a fresh one.
- `cloneTask` hands the clone the original's options object and task token object themselves, not copies, so the original and the clone share mutable state. The model has value semantics and cannot tell sharing from copying (see Left out).
- `submit(task, priority)` calls itself instead of the engine's submit.

## Model

| member | source | states |
|---|---|---|
| `DiscreteBroker.NewBroker` | src/DeployRBroker/DiscreteTaskBroker.cs:33-61 | after construction the pool holds each of `0 .. limit-1` exactly once and nothing else, so its size is the limit (0 for a non-positive limit); the map is empty; the broker is authenticated exactly when credentials were supplied, and the user is absent exactly when they were not; the result equals the reference `InitialBroker` |
| `TokenPool.InitialPool` | src/DeployRBroker/DiscreteTaskBroker.cs:57-60 | the tokens the constructor's loop adds: multiplicity 1 for every `t` in `0 .. n-1`, 0 for every other int, size `max(n, 0)` |
| `TokenPool.TryAdd` | src/DeployRBroker/DiscreteTaskBroker.cs:119-121 | assumption about the bounded pool: an add succeeds if and only if the pool holds fewer than `capacity` tokens; a successful add adds exactly one copy of the token, changes no other count, and never exceeds the capacity |
| `DiscreteBroker.Refresh` | src/DeployRBroker/DiscreteTaskBroker.cs:68-71 | refresh fails with "not supported" for every broker and every configuration, and leaves the broker (pool and map) unchanged |
| `DiscreteBroker.Submit` | src/DeployRBroker/DiscreteTaskBroker.cs:93-103 | submission fails with the anonymous-external error if and only if the broker is anonymous and the task's `external` field is non-empty; stored-script tasks pass on any broker, and any task passes on an authenticated broker; an accepted task is enqueued unchanged with its priority flag; the broker is unchanged either way |
| `DiscreteBroker.SubmitDefault` | src/DeployRBroker/DiscreteTaskBroker.cs:80-83 | the one-argument submit fails under the same condition as the guard, and an accepted task is enqueued as the same task with priority false |
| `DiscreteBroker.SubmitDefaultIsNonPriority` | src/DeployRBroker/DiscreteTaskBroker.cs:80-83 | `submit(task)` behaves exactly like `submit(task, false)` on every broker and task |
| `DiscreteBroker.CloneSubmitsAlike` | src/DeployRBroker/DiscreteTaskBroker.cs:156-170 | a clone passes the submission guard if and only if its original does |
| `DiscreteBroker.Callback` | src/DeployRBroker/DiscreteTaskBroker.cs:111-125 | the callback succeeds if and only if the task has a token in the map and the pool is below capacity. On success the pool grows by exactly one copy of that task's token and by nothing else. A task without a token fails with the missing-token error, and a full pool fails with the pool-rejected error. The map is never modified, and a failure leaves the broker unchanged |
| `DiscreteBroker.CreateBrokerWorker` | src/DeployRBroker/DiscreteTaskBroker.cs:132-145 | the worker receives the task, task index, priority flag, resource token and calling broker engine unchanged, together with the broker's client |
| `Tasks.CloneTask` | src/DeployRBroker/DiscreteTaskBroker.cs:151-174 | cloning a task whose `external` field is non-empty yields an external task with the same URL. Cloning any other task yields a stored-script task with the same filename, directory, author and version. In both cases the clone has the same options and the same task token as the original, and the same `external` field |
| `Tasks.CloneReproducesWellFormed` | src/DeployRBroker/DiscreteTaskBroker.cs:154-173 | cloning reproduces exactly any external task with a URL and any stored-script task |
| `Tasks.CloneIdempotent` | src/DeployRBroker/DiscreteTaskBroker.cs:154-173 | cloning a clone yields the same task again |
| `Lifecycle.ReleaseStep` | src/DeployRBroker/DiscreteTaskBroker.cs:116-124 | the callback of a task that currently holds a token never fails: the pool has room for it because the free tokens plus the lent ones fit the bound. It returns exactly that task's token, so the free tokens plus the tokens still lent are unchanged, and the map still records every remaining loan |
| `Lifecycle.AcquireStep` | src/DeployRBroker/DiscreteTaskBroker.cs:116-117 | a dispatch of a free token to a task that holds none records the loan in the map the callback reads, and keeps the free tokens plus the lent ones unchanged |
| `Lifecycle.RepayLent` | src/DeployRBroker/DiscreteTaskBroker.cs:116-119 | the token a callback returns is the one its task borrowed: taking the task's loan out of the lent tokens removes exactly its recorded map entry's token |
| `Lifecycle.RunConserves` | src/DeployRBroker/DiscreteTaskBroker.cs:114-124 | over any run in which each task is dispatched only while it holds no token and is called back only while it holds one, no callback fails. When every lent token has been returned, the pool ends equal to the free tokens plus the lent tokens at the start; the only other outcome is a dispatch that names a token that is not free |
| `Lifecycle.RunRestoresPool` | src/DeployRBroker/DiscreteTaskBroker.cs:57-60 | starting from a newly constructed broker, a run of one dispatch and one matching callback per task ends with the pool equal to `{0 .. N-1}` again, with no callback failing; the only other outcome is a dispatch that names a token that is not free |
| `Lifecycle.SecondCallbackRejected` | src/DeployRBroker/DiscreteTaskBroker.cs:116-124 | the callback leaves the map entry in place, so a second callback of the same task on a newly constructed broker tries to return the token twice, and the full pool refuses it |
| `SubmitRecursion.SubmitAsWritten` | src/DeployRBroker/DiscreteTaskBroker.cs:93-103 | the self-calling submit never completes with an enqueued task, whatever the stack depth: it ends either in a stack overflow or in the anonymous-external rejection |
| `SubmitRecursion.SubmitAsWrittenNeverEnqueues` | src/DeployRBroker/DiscreteTaskBroker.cs:102 | for every stack depth: a task the guard accepts ends in a stack overflow instead of being enqueued, and a task the guard rejects is rejected with the same error as the intended submit |

## Left out

- The client factory call and the login (lines 36 and 40) are network and authentication calls. The client is a plain value built from the endpoint and the limit. A login is a session for the supplied credentials. Login failures are not modelled.
- The execution of `DiscreteTaskWorker` is remote script execution through the client. The model only builds the worker value.
- The engine base class is not part of this model: `initEngine`, the priority and normal queues, dispatch order, the engine's `submit`, and the `RTaskToken` handed back to callers. The pool is assumed empty after `initEngine`, with its bound equal to the limit. Dispatch is assumed to move one free token into the map (`Lifecycle.EngineAcquire`).
- DiscreteBroker.Submit: returns the accepted submission as an abstract enqueue (`Enqueued(task, priority)`) instead of an `RTaskToken`, because the engine's queues and tokens are not part of this model.
- DiscreteBroker.Submit: only calls bound statically to `DiscreteTaskBroker` are modelled. The two `submit` overloads are declared `new` (lines 80 and 93), so they hide the engine's methods and do not override them. A caller holding the broker as `RBrokerEngine` or `RBroker` reaches the engine's own `submit`, and the anonymous-external guard at line 97 does not run for it.
- DiscreteBroker.SubmitDefault: as for `Submit`, only calls bound statically to `DiscreteTaskBroker` are modelled.
- DiscreteBroker.Refresh: only calls bound statically to `DiscreteTaskBroker` are modelled. `refresh` is declared `new` (line 68), so a caller holding the broker as `RBrokerEngine` or `RBroker` reaches the engine's own `refresh`, and the throw at line 70 does not happen for it.
- DiscreteBroker.CreateBrokerWorker: the `(int)` unboxing of the `Object` resource token (line 143) is not modelled; the token is already an int. The `(RBroker)` cast of the engine (line 144) is not modelled either, because the engine is a broker in the model.
- DiscreteBroker.Callback: ignores its task-result argument, as the source does; the completion of the caller's task token happens in the engine and is not modelled.
- Thread safety of the concurrent pool and map is out of scope: the model is sequential.
- The downcasts to `DiscreteTask` are not modelled, because the model only has discrete tasks. For a non-discrete task those casts would throw.
- `DiscreteTask` itself is not part of this model. The model assumes that `DiscreteTask` sets `external` to `""` for a stored-script task, and sets `filename`, `directory`, `author` and `version` to `""` for an external task. The guard at line 97 and the branch at line 156 depend on this: if a stored-script task's `external` were `null`, then `null != ""` would hold, the guard would reject every stored-script task on an anonymous broker, and cloning would take the external branch. Under the assumption, an external task with an empty URL clones into a stored-script task with empty fields, as the `external != ""` branch dictates.
- Tasks.CloneTask: the clone receives the original's `options` object and task token object (lines 161, 169 and 171), so the two tasks share them. The model's tasks are values, so it does not state that a later change to one task's options or token shows in the other.
- Tokens and the limit are unbounded integers. The source's `int` loop counter stays below the limit and cannot overflow.
- The sample program `examples/tutorial/Background/Background/Program.cs` has no broker logic.

## Findings

| source | as written | input that shows it | evidently intended | confidence | as-written member | corrected member |
|---|---|---|---|---|---|---|
| src/DeployRBroker/DiscreteTaskBroker.cs:102 | after the guard, `submit(task, priority)` returns `submit(task, priority)`, which resolves to this same method and recurses without end | any stored-script task, on any broker (`SubmitAsWrittenNeverEnqueues`: stack overflow at every depth) | delegate to the engine's `submit` after the guard, enqueuing the task | high; not executed | `SubmitRecursion.SubmitAsWritten`, `SubmitRecursion.SubmitAsWrittenNeverEnqueues` | `DiscreteBroker.Submit` |
