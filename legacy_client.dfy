/** The client of the earlier push-based variant: no flag validation, a
    fixed five-minute ack wait, and the same pair of publishes as the wired
    client. */
module LegacyClient {
  import opened Gateway
  import opened Naming
  import opened LegacyData
  import Client
  import LegacyWorker

  /** The fixed ack wait of every task: five minutes, in nanoseconds. */
  const TaskAckWait: int := 300_000_000_000

  /** The descriptor of a request made at `now` (client.go:23-28). */
  function Describe(taskId: string, delay: int, maxOccurrences: int, now: int): LegacyPayload
  {
    LegacyPayload(taskId, now + delay, TaskAckWait, maxOccurrences)
  }

  /** The whole request against a broker holding `consumers`. */
  function Request(consumers: map<string, ConsumerConfig>, taskId: string, delay: int, maxOccurrences: int,
                   now: int, codec: Codec<LegacyPayload>, lookupFailed: bool, intakeRefused: bool,
                   executeRefused: bool): (r: Client.Report)
    ensures codec.encode(Describe(taskId, delay, maxOccurrences, now)).None? ==>
      r == Client.Report([], Failure(Client.MarshalFailed))
    ensures r.outcome != Failure(Client.MissingTaskId) && r.outcome != Failure(Client.MissingDuration)
            && r.outcome != Failure(Client.BadDuration)
  {
    match codec.encode(Describe(taskId, delay, maxOccurrences, now))
    case None => Client.Report([], Failure(Client.MarshalFailed))
    case Some(bytes) => Client.Schedule(taskId, bytes, Found(consumers, ConsumerName(taskId), lookupFailed),
                                        intakeRefused, executeRefused)
  }

  /** Any id is accepted: the empty one schedules on the bare prefix
      "tasks.execute.". */
  lemma EmptyIdAccepted(consumers: map<string, ConsumerConfig>, delay: int, maxOccurrences: int, now: int,
                        codec: Codec<LegacyPayload>)
    requires codec.encode(Describe([], delay, maxOccurrences, now)).Some?
    ensures var r := Request(consumers, [], delay, maxOccurrences, now, codec, false, false, false);
      && r.outcome.Success?
      && Published("tasks.execute.", codec.encode(Describe([], delay, maxOccurrences, now)).value) in r.effects
  {
    assert ExecuteSubject([]) == "tasks.execute.";
  }

  /** What the worker does with what the client sends: the intake handler
      gives the task a consumer on its execute subject with the five-minute
      ack wait, and the execution handler acks the descriptor exactly when
      it is delivered no earlier than `delay` after the request. */
  lemma ClientToWorker(consumers: map<string, ConsumerConfig>, taskId: string, delay: int, maxOccurrences: int,
                       now: int, codec: Codec<LegacyPayload>, d: Delivery)
    requires RoundTrips(codec)
    requires codec.encode(Describe(taskId, delay, maxOccurrences, now)).Some?
    requires d.msg.data == codec.encode(Describe(taskId, delay, maxOccurrences, now)).value
    requires ConsumerName(taskId) !in consumers
    ensures LegacyWorker.InternalStep(d, consumers, codec, false, false, false).consumers
            == consumers[ConsumerName(taskId) := ConsumerConfig(ExecuteSubject(taskId), TaskAckWait)]
    ensures Acked(d.msg.id) in LegacyWorker.ExecutionStep(d, codec).effects <==> d.now >= now + delay
  {
    var p := Describe(taskId, delay, maxOccurrences, now);
    LegacyWorker.InternalDecision(d, consumers, codec, false, false, p);
  }

  /** RunClient (client.go:13-54). */
  method RunClient(b: Broker, taskId: string, delay: int, maxOccurrences: int, now: int,
                   codec: Codec<LegacyPayload>, lookupFailed: bool, intakeRefused: bool, executeRefused: bool)
    returns (r: Result<bool, Client.ClientError>)
    modifies b
    ensures b.consumers == old(b.consumers)
    ensures var rep := Request(old(b.consumers), taskId, delay, maxOccurrences, now, codec,
                               lookupFailed, intakeRefused, executeRefused);
      b.trace == old(b.trace) + rep.effects && r == rep.outcome
  {
    var payload := LegacyPayload(taskId, now + delay, TaskAckWait, maxOccurrences);
    var bytes := codec.encode(payload);
    if bytes.None? {
      return Failure(Client.MarshalFailed);
    }
    r := Client.PublishSchedule(b, taskId, bytes.value, lookupFailed, intakeRefused, executeRefused);
  }
}
