# natshed scheduling protocol in Dafny

natshed schedules tasks over a NATS JetStream stream named `tasks`. A client
publishes a task descriptor to the shared intake subject `tasks.internal`
when the task has no durable consumer `consumer-<id>` yet. It then always
publishes the descriptor to the task's own subject `tasks.execute.<id>`. A
worker runs an intake dispatcher on `tasks.internal`. The dispatcher starts
a per-task loop the first time it sees a task. At start-up the worker also
restarts one loop for every consumer the stream lists. A per-task loop pulls
from `tasks.execute.<id>`. It acks and runs a descriptor once its time has
come, and naks it until then. After a run it republishes the next
occurrence, as long as iterations remain.

The model works against an abstract broker, the class `Gateway.Broker`. Its
state is the stream's durable consumers (name to filter subject and ack
wait) and an ordered trace. The trace records what the scheduler did:
publishes, acks, naks, subscriptions and the per-task loops it started.
Broker calls whose failure the code handles take a `refused` flag. A
consumer lookup (`ConsumerInfo`) takes a `lookupFailed` flag: the code
treats any lookup error like an absent consumer, so a lookup finds a
consumer only when it is present and the call does not fail. JSON
marshalling is a pair of partial functions (`Gateway.Codec`).
`time.ParseDuration` is a partial function to nanoseconds. The clock is a
pair of integers carried by each delivery: `now` for the readiness check
and `later` for the reschedule. A goroutine's unbounded fetch loop runs
against a finite script of fetch outcomes: a timeout, an error, or a batch
of deliveries.

Each loop is imperative Dafny at three levels:

- a method for one message;
- a method for one fetch (the `range msgs` loop);
- a method for the whole goroutine: setup, then the `for {}` loop.

Each level is proved to leave exactly the trace that a pure step function
predicts. The step functions are composed with `Gateway.Sequence`, which
stops at the first step that returns or ends the process. The properties
the code promises are proved as lemmas about those functions.

The repository has three variants, and each is modelled separately:

- **Wired variant**
  - `Descriptor` models internal/common/data.go.
  - `TaskLoop` models internal/worker/task.go.
  - `Intake` models internal/worker/internal.go.
  - `Client` models internal/client/publish.go.
- **Single-file prototype** (main.go): `Prototype`.
- **Push-based variant**
  - `LegacyData` models data/types.go.
  - `LegacyWorker` models internal/worker/consumer.go.
  - `LegacyClient` models internal/client/client.go.

Where the behaviour described for the system differs from the code, the model follows the code:

- A failed consumer creation in the intake handler does not leave the
  message un-acked. consumer.go acks it anyway (internal/worker/consumer.go:81-85).
- The wired dispatcher does not provision the task's consumer itself. It
  starts a loop that creates the consumer. It decides on the consumer
  lookup, not on whether a creation happened (internal/worker/internal.go:93-104).
- A failed reschedule does not leave the occurrence un-acked. The ack comes
  first, and a failed parse, marshal or publish ends the process
  (internal/worker/task.go:61-77).
- An unparseable ack wait for a new task makes the wired dispatcher return.
  The message is then neither acked nor naked (internal/worker/internal.go:98-102).

## Model

| member | source | states |
|---|---|---|
| Gateway.Broker.constructor | internal/worker/internal.go:40-43 | A broker starts with the stream's existing consumers and nothing done yet. |
| Gateway.Broker.AddConsumer | internal/worker/task.go:19-28 | Creation succeeds exactly when the name is free or already has the same configuration, and only then is the consumer recorded; nothing is traced. |
| Gateway.Broker.Publish | internal/client/publish.go:66-69 | A publish that is not refused appends exactly that subject and payload to the trace; consumers are untouched. |
| Gateway.Broker.PullSubscribe | internal/worker/task.go:30-34 | A pull subscription that is not refused is traced with its subject and durable name. |
| Gateway.Broker.Subscribe | internal/worker/consumer.go:53-57 | A push subscription that is not refused is traced with its subject. |
| Gateway.Broker.Ack | internal/worker/task.go:61 | Acking appends the message's ack and nothing else. |
| Gateway.Broker.Nak | internal/worker/task.go:81 | Naking appends the message's nak and nothing else. |
| Gateway.Broker.ListConsumers | internal/worker/internal.go:40-43 | The stream's consumer listing names every consumer exactly once, in the broker's order, and changes nothing. |
| Gateway.Broker.Spawn | internal/worker/internal.go:103 | Starting a per-task loop is traced with its task id and ack wait. |
| Gateway.SequenceAppend | internal/worker/task.go:49-83 | Handling one more message after a prefix that stayed in the loop adds exactly that message's effects and takes its control outcome. |
| Gateway.SequenceStops | internal/worker/internal.go:98-102 | Once a handler returns or ends the process, later input changes nothing. |
| Gateway.SequenceDone | internal/worker/internal.go:84-107 | A loop that ran out of input or left early has done exactly what the whole sequence does. |
| Gateway.SequenceAvoids | internal/worker/task.go:37-84 | A loop none of whose steps returns (or, likewise, ends the process) never returns (never ends the process). |
| Gateway.SequenceContinues | main.go:159-189 | A loop whose every step continues continues. |
| Gateway.SequenceEffectsWithin | main.go:222-252 | A loop whose every step leaves only effects of a given kind leaves only effects of that kind. |
| Naming.RemoveAll | internal/worker/internal.go:48 | Deleting every occurrence never lengthens the name, and a name of unchanged length is unchanged. |
| Naming.RemoveAllAbsent | internal/worker/internal.go:48 | Deleting every occurrence of a pattern that does not occur leaves the string as it is. |
| Naming.TaskIdOfConsumerName | internal/worker/internal.go:48 | Recovery inverts the `consumer-<id>` naming of internal/worker/task.go:17 for every id that does not contain "consumer-". |
| Naming.TaskIdOfLosesNestedPrefix | internal/worker/internal.go:48 | The condition is needed: the distinct consumers of tasks "consumer-a" and "a" are both recovered as task "a". |
| Naming.TaskIdOfInternalConsumer | internal/worker/internal.go:48-49 | The intake consumer "internal-consumer" is recovered as a task of the same name. |
| Naming.NamesAreDistinct | internal/worker/task.go:16-17 | Consumer names and execute subjects are injective in the task id, no execute subject is `tasks.internal`, and no task's consumer is `internal-consumer`. |
| TaskLoop.TaskStep | internal/worker/task.go:49-83 | A message is acked first exactly when it decodes and is due, otherwise naked only. It leaves at most two effects, and any further effect is a publish to the loop's own execute subject. The loop never returns here, and a process-ending failure leaves the message acked and nothing published. |
| TaskLoop.RepublishedPayload | internal/worker/task.go:58-77 | A republish happens exactly when the descriptor is due, below its iteration bound, has a parseable ack wait, marshals, and the publish goes through. The republished bytes decode to the same task with `Iter+1 <= MaxIter`, the same ack wait and bound, and `NextExec` equal to the later clock read plus the ack wait. The process ends exactly when the descriptor is due, below its bound, and the parse, the marshal or the publish fails. A due descriptor at its bound is acked and nothing else. |
| TaskLoop.RepublishNotEarlier | internal/worker/task.go:58-68 | With a clock that does not go back and a non-negative ack wait, the next occurrence is due no earlier than the one that ran, nor earlier than the ack wait after the readiness check. |
| TaskLoop.ChainBounded | internal/worker/task.go:62-77 | A chain of occurrences holds at most `MaxIter - Iter` republished descriptors after the first. Iterations count up by one, so no two are alike, and none exceeds the bound. Id, ack wait and bound are kept. |
| TaskLoop.ChainLinks | internal/worker/task.go:62-77 | Each descriptor of a chain after the first is the republish of its predecessor, which was below its bound, at the matching later clock read. A chain that ends before the clock reads run out ends at a descriptor at its bound. |
| TaskLoop.ChainRepublishes | internal/worker/task.go:58-77 | The task loop, handed the encoding of any due descriptor of a chain, acks it and publishes to its own execute subject bytes that decode to the next descriptor of the chain, when marshal and publish go through. At the chain's last descriptor it only acks. |
| TaskLoop.ChainWithoutIterations | internal/worker/task.go:62 | A descriptor with `Iter = MaxIter = 0` runs once and is never republished. |
| TaskLoop.TaskFetch | internal/worker/task.go:37-84 | No fetch makes the task loop return. Every effect of a fetch is an ack, a nak or a publish to the loop's own execute subject. A fetch timeout or error does nothing and the loop goes on. |
| TaskLoop.TaskConsumerReturnsOnlyOnSetup | internal/worker/task.go:15-34 | The task loop returns exactly when its consumer cannot be created or its subscription cannot be bound, and then it has done nothing. |
| TaskLoop.HandleTaskMessage | internal/worker/task.go:49-83 | One message leaves exactly the trace of `TaskStep` and the matching control outcome; consumers are untouched. |
| TaskLoop.HandleTaskFetch | internal/worker/task.go:40-83 | One fetch handles the batch in order until a message ends the process, leaving exactly the trace of `TaskFetch`. |
| TaskLoop.StartTaskConsumer | internal/worker/task.go:15-85 | The goroutine creates `consumer-<id>` filtered to `tasks.execute.<id>` with the given ack wait, pull-subscribes, and handles the fetches. Its consumers and trace are exactly those `TaskConsumer` predicts. |
| TaskLoop.RunTaskLoop | internal/worker/task.go:37-84 | The running loop handles the fetches in order until a message ends the process; its trace and outcome are exactly those of the fetches in sequence. |
| Intake.IntakeStep | internal/worker/internal.go:84-106 | Handling an intake message never ends the process. An undecodable one is naked only, with no lookup, spawn or ack. |
| Intake.IntakeDecision | internal/worker/internal.go:93-106 | A decoded intake message is never naked. A loop starts exactly when the lookup does not find the task's consumer (absent, or the lookup fails) and its ack wait parses. The dispatcher returns, with neither ack nor nak, exactly when the lookup does not find the consumer and the ack wait does not parse. Otherwise the message is acked once, after the start decision. |
| Intake.IntakeFetch | internal/worker/internal.go:72-108 | No fetch ends the process. Every effect of a fetch is an ack, a nak or a started loop. A fetch timeout or error does nothing and the dispatcher goes on. |
| Intake.DispatcherStopsBeforeFetch | internal/worker/internal.go:55-69 | If the intake consumer cannot be created or bound, the dispatcher returns before fetching anything. |
| Intake.IntakeConsumerHidesNoTask | internal/worker/internal.go:55-59 | Creating the intake consumer changes no task's consumer lookup. |
| Intake.ConsumeInternalMessage | internal/worker/internal.go:84-107 | One intake message leaves exactly the trace and control outcome of `IntakeStep`. |
| Intake.ConsumeInternalFetch | internal/worker/internal.go:75-107 | One fetch handles the batch in order until a message makes the dispatcher return, leaving exactly the trace of `IntakeFetch`. |
| Intake.ConsumeInternal | internal/worker/internal.go:53-109 | The dispatcher creates `internal-consumer` on `tasks.internal`, pull-subscribes, and handles the fetches. Its consumers and trace are exactly those `ConsumeInternalRun` predicts. |
| Intake.RunIntakeLoop | internal/worker/internal.go:72-108 | The running dispatcher handles the fetches in order until a message makes it return, and leaves exactly the trace and outcome of those fetches in sequence. |
| Intake.Respawns | internal/worker/internal.go:43-50 | There is one restarted loop per listed consumer, in listing order, each under the id recovered from the name and the consumer's own ack wait. |
| Intake.RespawnRestoresTask | internal/worker/internal.go:48-49 | A consumer created by a task loop is restarted under its own task id and ack wait, provided the id contains no "consumer-". |
| Intake.RespawnOfIntakeConsumer | internal/worker/internal.go:48-49 | The intake consumer is restarted as a loop for a task named "internal-consumer", whose own consumer is a different one. |
| Intake.SpawnExistingTaskConsumers | internal/worker/internal.go:39-51 | Every consumer of the stream is listed exactly once, and the trace gains exactly one restarted loop per listed consumer, in listing order. Consumers are untouched. |
| Client.Schedule | internal/client/publish.go:64-78 | `tasks.internal` gets a publish exactly when the consumer lookup did not find the consumer and the publish goes through. The execute subject gets one exactly when the intake publish, if any, succeeded and the execute publish goes through. Both carry the same bytes, intake first. An intake failure stops before the execute publish. On success the result tells whether the task was new. |
| Client.RequestRejections | internal/client/publish.go:21-51 | An empty id, an empty duration or an unparseable duration is rejected before any publish. |
| Client.RequestDescriptor | internal/client/publish.go:53-78 | A successful request ends with a publish to `tasks.execute.<id>` of the descriptor with the given id, `NextExec = now + duration`, the raw duration as ack wait, and no iterations. With the task loop, that descriptor runs once and is never republished. |
| Client.PublishSchedule | internal/client/publish.go:44-78 | The two publishes leave exactly the trace and outcome of `Schedule` for the current lookup; consumers are untouched. |
| Client.RunClient | internal/client/publish.go:16-81 | The whole request leaves exactly the trace and outcome of `Request`. |
| Prototype.RequestOutcome | main.go:51-113 | An empty id or empty duration is rejected before any publish. Any publish carries the encoding of the three-field descriptor due `now + duration`, with the raw duration as ack wait. `tasks.internal` gets it exactly when the lookup did not find the task's consumer (absent, or the lookup failed) and the publish goes through. |
| Prototype.RunClient | main.go:51-116 | The whole prototype request leaves exactly the trace and outcome of `Request`. |
| Prototype.IntakeStep | main.go:171-189 | A prototype intake message never stops the dispatcher. An undecodable one is naked only. |
| Prototype.IntakeDecision | main.go:180-188 | A decoded prototype intake message is acked once, last, and never naked. A loop starts with the ack wait still as text exactly when the lookup does not find the task's consumer. |
| Prototype.IntakeFetch | main.go:160-169 | A fetch never stops the prototype dispatcher; a timeout or error does nothing. |
| Prototype.DispatcherNeverStops | main.go:157-190 | Once the intake consumer is created and bound, the prototype dispatcher never leaves its loop. |
| Prototype.TaskStep | main.go:235-250 | A prototype task message is settled exactly once: acked exactly when it decodes and is due, and naked exactly when it does not. Nothing is ever published. |
| Prototype.TaskFetch | main.go:223-232 | A fetch never stops the prototype task loop; a timeout or error does nothing. |
| Prototype.TaskLoopNeverPublishes | main.go:194-253 | Whatever is fetched, the prototype task loop never publishes. |
| Prototype.UnparseableWaitCreatesNothing | main.go:198-202 | An unparseable ack wait ends the prototype task loop before any consumer is created. |
| Prototype.ConsumeInternalMessage | main.go:171-189 | One prototype intake message leaves exactly the trace of `IntakeStep`. |
| Prototype.ConsumeInternalFetch | main.go:160-190 | One fetch leaves exactly the trace of `IntakeFetch`. |
| Prototype.ConsumeInternal | main.go:140-191 | The prototype dispatcher's consumers and trace are exactly those `ConsumeInternalRun` predicts. |
| Prototype.RunIntakeLoop | main.go:157-190 | The running prototype dispatcher leaves exactly the trace of all its fetches in order. |
| Prototype.HandleTaskMessage | main.go:235-250 | One prototype task message leaves exactly the trace of `TaskStep`. |
| Prototype.HandleTaskFetch | main.go:223-251 | One fetch leaves exactly the trace of `TaskFetch`. |
| Prototype.StartTaskConsumer | main.go:194-253 | The prototype task loop parses the ack wait first, then creates and binds its consumer. Its consumers and trace are exactly those `TaskConsumer` predicts. |
| Prototype.RunTaskLoop | main.go:222-252 | The running loop leaves exactly the trace of all its fetches in order. |
| LegacyWorker.Provision | internal/worker/consumer.go:31-60 | An existing consumer is kept as it is, whatever its configuration. Creation is tried whenever the lookup does not find the consumer (absent, or the lookup fails), and fails exactly when the broker refuses it. Creation failure skips the subscribe. Success means subscribed, whether the consumer was found or created, and reports which. Other consumers are untouched. |
| LegacyWorker.ProvisionAddsOnce | internal/worker/consumer.go:33-50 | After a first call that found or created the consumer, provisioning the name again, with any configuration, adds nothing. When the second lookup succeeds it never reports a new consumer and fails only if the subscribe does. |
| LegacyWorker.CreateOrGetConsumer | internal/worker/consumer.go:31-60 | The helper leaves exactly the consumers, trace and outcome of `Provision`. |
| LegacyWorker.InternalStep | internal/worker/consumer.go:62-72 | An undecodable intake message gets neither ack nor nak. A failed stream lookup ends the process before anything is done. |
| LegacyWorker.InternalDecision | internal/worker/consumer.go:74-85 | A decoded intake message is acked once and last, whether or not provisioning succeeded, and never naked. The task's consumer is `consumer-<id>` on `tasks.execute.<id>` with the payload's ack wait. An existing consumer is left as it is. |
| LegacyWorker.HandleInternalMessage | internal/worker/consumer.go:62-86 | One pushed intake message leaves exactly the consumers, trace and control outcome of `InternalStep`. |
| LegacyWorker.ExecutionStep | internal/worker/consumer.go:88-103 | A pushed task message is acked exactly when it decodes and its timestamp is not after `now`. Otherwise nothing happens: no ack, no nak, no publish. |
| LegacyWorker.HandleTaskExecution | internal/worker/consumer.go:88-103 | One pushed task message leaves exactly the trace of `ExecutionStep`. |
| LegacyWorker.WorkerStart | internal/worker/consumer.go:15-29 | The worker ends the process exactly when the lookup does not find the intake consumer and it cannot be created, or it cannot be bound. A new intake consumer gets `tasks.internal` and a fixed 30-second ack wait. A running worker has subscribed to `tasks.internal`. |
| LegacyWorker.RunWorker | internal/worker/consumer.go:15-29 | Start-up leaves exactly the consumers, trace and outcome of `WorkerStart`. |
| LegacyClient.Request | internal/client/client.go:13-54 | A descriptor that does not marshal stops the request before any publish. No request is rejected for its id or duration. |
| LegacyClient.EmptyIdAccepted | internal/client/client.go:14-50 | An empty id is accepted and scheduled on the bare subject `tasks.execute.`. |
| LegacyClient.ClientToWorker | internal/client/client.go:23-50 | Whatever the consumer lookup answers, the intake handler gives a new task `consumer-<id>` on `tasks.execute.<id>` with the five-minute ack wait. The execution handler acks the descriptor exactly when it is delivered no earlier than `delay` after the request. |
| LegacyClient.RunClient | internal/client/client.go:13-54 | The whole request leaves exactly the trace and outcome of `Request`. |

## Left out

- Connection, JetStream context and stream creation are not part of this
  model: internal/conn/utils.go, internal/common/utils.go and `CreateStream`
  in main.go. The broker is abstract state whose stream already exists.
- The command-line wiring is left out: cmd/main.go, the cobra and urfave
  setup, and flag reads. Flag values are parameters.
- `RunWorker` (internal/worker/internal.go:16-37) is left out. It only
  starts the dispatcher goroutine, runs the recovery of existing task
  consumers beside it, and blocks. Each of the two is modelled on its own;
  how they interleave is not.
- `runWorker` (main.go:118-137) is left out. It only starts the prototype
  dispatcher goroutine (main.go:133) and blocks; the prototype has no
  recovery.
- Goroutines run one at a time. A spawned loop is a trace event, not a
  concurrent run.
- RunIntakeLoop (Intake.RunIntakeLoop and Prototype.RunIntakeLoop): the
  consumers are held constant while the dispatcher runs, at their value
  when the loop starts. A loop it started creates its consumer
  concurrently in the source, so two intake messages for the same new task
  in one run both start a loop in the model. The source may or may not do
  that, depending on timing.
- Redelivery after a nak or an expired ack wait is a broker guarantee, not
  code, so it is not modelled. The same goes for the fetch context timeout
  and the batch size of one.
- The JSON and duration grammars are not modelled. `Codec` and `Parser`
  are opaque partial functions. Round-trip lemmas assume `RoundTrips`.
- Time is not modelled as `time.Time`. Clock reads and durations are
  unbounded nanosecond integers, so no overflow or monotonic-clock effects
  appear.
- Intake.IntakeConfig: an ack wait of 0 stands for "server default". The
  server's substitution of its default is not modelled.
- Consumer configuration records only the filter subject and ack wait. Ack
  policy and deliver policy are the same everywhere in the source and are
  not modelled.
- LegacyWorker.Provision: which handler a push subscription is bound to is
  not recorded, only its subject. The library's dispatch of pushed
  messages to handlers is not modelled. Each handler is modelled on its
  own. Nor is what the client library does around a push handler: a
  callback subscription without manual acks creates its own ephemeral
  consumer and acks each message once the handler returns, so a message
  that `handleTaskExecution` skips as not yet due is acked by the library
  all the same. The model records only what the handlers themselves do.
- Logging and printing are not modelled.
