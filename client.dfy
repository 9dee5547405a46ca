/** The scheduling request of the wired client: validate the flags, build the
    descriptor, publish it to the intake subject when the task has no consumer
    yet, then always to the task's execute subject. */
module Client {
  import opened Gateway
  import opened Naming
  import opened Descriptor
  import TaskLoop

  datatype ClientError =
    | MissingTaskId
    | MissingDuration
    | BadDuration
    | MarshalFailed
    | IntakePublishFailed
    | ExecutePublishFailed

  /** What a request did to the broker and how it ended; on success, whether
      the task was scheduled for the first time. */
  datatype Report = Report(effects: seq<Effect>, outcome: Result<bool, ClientError>)

  /** The two publishes every client variant ends with, for a task whose
      consumer lookup succeeded (`consumerExists`) or failed, whether because
      the consumer is absent or because the lookup itself erred. */
  function Schedule(taskId: string, bytes: Bytes, consumerExists: bool,
                    intakeRefused: bool, executeRefused: bool): (r: Report)
    ensures Published(IntakeSubject, bytes) in r.effects <==> !consumerExists && !intakeRefused
    ensures Published(ExecuteSubject(taskId), bytes) in r.effects
            <==> (consumerExists || !intakeRefused) && !executeRefused
    ensures forall e :: e in r.effects ==> e.Published? && e.data == bytes
    ensures r.outcome.Success? <==> (consumerExists || !intakeRefused) && !executeRefused
    ensures r.outcome.Success? ==>
      && r.outcome.value == !consumerExists
      && r.effects == (if consumerExists then [] else [Published(IntakeSubject, bytes)])
                      + [Published(ExecuteSubject(taskId), bytes)]
    ensures !consumerExists && intakeRefused ==> r == Report([], Failure(IntakePublishFailed))
  {
    NamesAreDistinct(taskId, taskId);
    var intake := if consumerExists then [] else [Published(IntakeSubject, bytes)];
    if !consumerExists && intakeRefused then Report([], Failure(IntakePublishFailed))
    else if executeRefused then Report(intake, Failure(ExecutePublishFailed))
    else Report(intake + [Published(ExecuteSubject(taskId), bytes)], Success(!consumerExists))
  }

  /** Validation and the descriptor (publish.go:21-57). */
  function Describe(taskId: string, duration: string, now: int, parse: TaskLoop.Parser)
    : Result<TaskPayload, ClientError>
  {
    if taskId == [] then Failure(MissingTaskId)
    else if duration == [] then Failure(MissingDuration)
    else match parse(duration)
      case None => Failure(BadDuration)
      case Some(delay) => Success(TaskPayload(taskId, now + delay, duration, 0, 0))
  }

  /** The whole request against a broker holding `consumers`. */
  function Request(consumers: map<string, ConsumerConfig>, taskId: string, duration: string, now: int,
                   parse: TaskLoop.Parser, codec: Codec<TaskPayload>,
                   lookupFailed: bool, intakeRefused: bool, executeRefused: bool): Report
  {
    match Describe(taskId, duration, now, parse)
    case Failure(e) => Report([], Failure(e))
    case Success(p) =>
      match codec.encode(p)
      case None => Report([], Failure(MarshalFailed))
      case Some(bytes) => Schedule(taskId, bytes, Found(consumers, ConsumerName(taskId), lookupFailed), intakeRefused, executeRefused)
  }

  /** A request is rejected before any publish for a missing id, a missing
      or unparseable duration, or a payload that does not marshal. */
  lemma RequestRejections(consumers: map<string, ConsumerConfig>, taskId: string, duration: string, now: int,
                          parse: TaskLoop.Parser, codec: Codec<TaskPayload>,
                          lookupFailed: bool, intakeRefused: bool, executeRefused: bool)
    ensures var r := Request(consumers, taskId, duration, now, parse, codec, lookupFailed, intakeRefused, executeRefused);
      && (taskId == [] ==> r == Report([], Failure(MissingTaskId)))
      && (taskId != [] && duration == [] ==> r == Report([], Failure(MissingDuration)))
      && (taskId != [] && duration != [] && parse(duration).None? ==> r == Report([], Failure(BadDuration)))
      && (r.effects != [] ==> taskId != [] && duration != [] && parse(duration).Some?)
  {
  }

  /** The descriptor a valid request publishes: the given id, due the parsed
      duration after `now`, the raw duration as ack wait, no iterations; both
      subjects receive its encoding. Combined with the task loop, it runs
      once and is never republished. */
  lemma RequestDescriptor(consumers: map<string, ConsumerConfig>, taskId: string, duration: string, now: int,
                          parse: TaskLoop.Parser, codec: Codec<TaskPayload>,
                          lookupFailed: bool, intakeRefused: bool, executeRefused: bool,
                          d: Delivery, laters: seq<int>)
    requires RoundTrips(codec)
    requires taskId != [] && duration != [] && parse(duration).Some?
    requires var r := Request(consumers, taskId, duration, now, parse, codec, lookupFailed, intakeRefused, executeRefused);
      r.outcome.Success?
    ensures var r := Request(consumers, taskId, duration, now, parse, codec, lookupFailed, intakeRefused, executeRefused);
      var p := TaskPayload(taskId, now + parse(duration).value, duration, 0, 0);
      && codec.encode(p).Some?
      && r.effects[|r.effects| - 1] == Published(ExecuteSubject(taskId), codec.encode(p).value)
      && (d.msg.data == codec.encode(p).value ==>
            |TaskLoop.TaskStep(taskId, d, parse, codec).effects| == 1)
      && TaskLoop.Chain(p, parse(duration).value, laters) == [p]
  {
    var p := TaskPayload(taskId, now + parse(duration).value, duration, 0, 0);
    if d.msg.data == codec.encode(p).value {
      TaskLoop.RepublishedPayload(taskId, d, parse, codec, p);
    }
  }

  /** The two publishes (publish.go:64-78). */
  method PublishSchedule(b: Broker, taskId: string, bytes: Bytes,
                         lookupFailed: bool, intakeRefused: bool, executeRefused: bool)
    returns (r: Result<bool, ClientError>)
    modifies b
    ensures b.consumers == old(b.consumers)
    ensures var rep := Schedule(taskId, bytes, Found(old(b.consumers), ConsumerName(taskId), lookupFailed),
                                intakeRefused, executeRefused);
      b.trace == old(b.trace) + rep.effects && r == rep.outcome
  {
    var found := b.Lookup(ConsumerName(taskId), lookupFailed);
    if !found {
      var ok := b.Publish(IntakeSubject, bytes, intakeRefused);
      if !ok {
        return Failure(IntakePublishFailed);
      }
    }
    var ok := b.Publish(ExecuteSubject(taskId), bytes, executeRefused);
    if !ok {
      return Failure(ExecutePublishFailed);
    }
    return Success(!found);
  }

  /** RunClient (publish.go:16-81); every failure is fatal to the command. */
  method RunClient(b: Broker, taskId: string, duration: string, now: int,
                   parse: TaskLoop.Parser, codec: Codec<TaskPayload>,
                   lookupFailed: bool, intakeRefused: bool, executeRefused: bool)
    returns (r: Result<bool, ClientError>)
    modifies b
    ensures b.consumers == old(b.consumers)
    ensures var rep := Request(old(b.consumers), taskId, duration, now, parse, codec, lookupFailed, intakeRefused, executeRefused);
      b.trace == old(b.trace) + rep.effects && r == rep.outcome
  {
    if taskId == [] {
      return Failure(MissingTaskId);
    }
    if duration == [] {
      return Failure(MissingDuration);
    }
    var delay := parse(duration);
    if delay.None? {
      return Failure(BadDuration);
    }
    var payload := TaskPayload(taskId, now + delay.value, duration, 0, 0);
    var bytes := codec.encode(payload);
    if bytes.None? {
      return Failure(MarshalFailed);
    }
    r := PublishSchedule(b, taskId, bytes.value, lookupFailed, intakeRefused, executeRefused);
  }
}
