/** The single-file prototype: a three-field descriptor without recurrence,
    the same client request, an intake dispatcher that passes the ack wait on
    unparsed, and a task loop that parses it before creating its consumer. */
module Prototype {
  import opened Gateway
  import opened Naming
  import TaskLoop
  import Intake
  import Client

  /** The prototype descriptor: id, earliest run time (ns), unparsed ack wait. */
  datatype ProtoPayload = ProtoPayload(taskId: string, nextExec: int, ackWait: string)

  /** Validation and the descriptor (main.go:56-92). */
  function Describe(taskId: string, duration: string, now: int, parse: TaskLoop.Parser)
    : Result<ProtoPayload, Client.ClientError>
  {
    if taskId == [] then Failure(Client.MissingTaskId)
    else if duration == [] then Failure(Client.MissingDuration)
    else match parse(duration)
      case None => Failure(Client.BadDuration)
      case Some(delay) => Success(ProtoPayload(taskId, now + delay, duration))
  }

  /** The whole request against a broker holding `consumers`. */
  function Request(consumers: map<string, ConsumerConfig>, taskId: string, duration: string, now: int,
                   parse: TaskLoop.Parser, codec: Codec<ProtoPayload>,
                   lookupFailed: bool, intakeRefused: bool, executeRefused: bool): Client.Report
  {
    match Describe(taskId, duration, now, parse)
    case Failure(e) => Client.Report([], Failure(e))
    case Success(p) =>
      match codec.encode(p)
      case None => Client.Report([], Failure(Client.MarshalFailed))
      case Some(bytes) =>
        Client.Schedule(taskId, bytes, Found(consumers, ConsumerName(taskId), lookupFailed), intakeRefused, executeRefused)
  }

  /** An invalid request touches nothing; a valid one publishes the encoding of
      the descriptor due the parsed duration after `now`, to the intake subject
      exactly when the task has no consumer, and to the execute subject. */
  lemma RequestOutcome(consumers: map<string, ConsumerConfig>, taskId: string, duration: string, now: int,
                       parse: TaskLoop.Parser, codec: Codec<ProtoPayload>,
                       lookupFailed: bool, intakeRefused: bool, executeRefused: bool)
    ensures var r := Request(consumers, taskId, duration, now, parse, codec, lookupFailed, intakeRefused, executeRefused);
      && (taskId == [] ==> r == Client.Report([], Failure(Client.MissingTaskId)))
      && (taskId != [] && duration == [] ==> r == Client.Report([], Failure(Client.MissingDuration)))
      && (r.effects != [] ==>
            && taskId != [] && duration != [] && parse(duration).Some?
            && var p := ProtoPayload(taskId, now + parse(duration).value, duration);
            && codec.encode(p).Some?
            && (Published(IntakeSubject, codec.encode(p).value) in r.effects
                <==> !Found(consumers, ConsumerName(taskId), lookupFailed) && !intakeRefused)
            && (forall e :: e in r.effects ==> e.Published? && e.data == codec.encode(p).value))
  {
  }

  /** runClient (main.go:51-116). */
  method RunClient(b: Broker, taskId: string, duration: string, now: int,
                   parse: TaskLoop.Parser, codec: Codec<ProtoPayload>,
                   lookupFailed: bool, intakeRefused: bool, executeRefused: bool)
    returns (r: Result<bool, Client.ClientError>)
    modifies b
    ensures b.consumers == old(b.consumers)
    ensures var rep := Request(old(b.consumers), taskId, duration, now, parse, codec, lookupFailed, intakeRefused, executeRefused);
      b.trace == old(b.trace) + rep.effects && r == rep.outcome
  {
    if taskId == [] {
      return Failure(Client.MissingTaskId);
    }
    if duration == [] {
      return Failure(Client.MissingDuration);
    }
    var delay := parse(duration);
    if delay.None? {
      return Failure(Client.BadDuration);
    }
    var bytes := codec.encode(ProtoPayload(taskId, now + delay.value, duration));
    if bytes.None? {
      return Failure(Client.MarshalFailed);
    }
    r := Client.PublishSchedule(b, taskId, bytes.value, lookupFailed, intakeRefused, executeRefused);
  }

  /** One intake message while the broker holds `consumers`. */
  function IntakeStep(d: Delivery, consumers: map<string, ConsumerConfig>, codec: Codec<ProtoPayload>): (s: Step)
    ensures s.control == Continue
    ensures codec.decode(d.msg.data).None? ==> s.effects == [Naked(d.msg.id)]
  {
    match codec.decode(d.msg.data)
    case None => Step([Naked(d.msg.id)], Continue)
    case Some(p) =>
      if Found(consumers, ConsumerName(p.taskId), d.lookupFailed) then Step([Acked(d.msg.id)], Continue)
      else Step([SpawnedRaw(p.taskId, p.ackWait), Acked(d.msg.id)], Continue)
  }

  /** Every decoded intake message is acked once, as its last effect, and
      never naked; a loop is started, with the ack wait still as text,
      exactly when the lookup of the task's consumer fails. */
  lemma IntakeDecision(d: Delivery, consumers: map<string, ConsumerConfig>, codec: Codec<ProtoPayload>,
                       p: ProtoPayload)
    requires codec.decode(d.msg.data) == Some(p)
    ensures var s := IntakeStep(d, consumers, codec);
      && |s.effects| > 0 && s.effects[|s.effects| - 1] == Acked(d.msg.id)
      && Acked(d.msg.id) !in s.effects[..|s.effects| - 1]
      && Naked(d.msg.id) !in s.effects
      && (SpawnedRaw(p.taskId, p.ackWait) in s.effects <==> !Found(consumers, ConsumerName(p.taskId), d.lookupFailed))
      && (forall e :: e in s.effects ==> e == Acked(d.msg.id) || e == SpawnedRaw(p.taskId, p.ackWait))
  {
  }

  function IntakeFetch(f: Fetched, consumers: map<string, ConsumerConfig>, codec: Codec<ProtoPayload>): (s: Step)
    ensures s.control == Continue
    ensures !f.Batch? ==> s.effects == []
  {
    match f
    case Batch(ds) =>
      SequenceContinues(ds, d => IntakeStep(d, consumers, codec));
      Sequence(ds, d => IntakeStep(d, consumers, codec))
    case _ => Step([], Continue)
  }

  /** The prototype dispatcher against a finite script of fetch outcomes. */
  function ConsumeInternalRun(consumers: map<string, ConsumerConfig>, addRefused: bool,
                              subscribeRefused: bool, fetches: seq<Fetched>, codec: Codec<ProtoPayload>): Step
  {
    if !CreateAccepted(consumers, InternalConsumer, Intake.IntakeConfig, addRefused) || subscribeRefused
    then Step([], Return)
    else
      var running := consumers[InternalConsumer := Intake.IntakeConfig];
      Then(Step([PullSubscribed(IntakeSubject, InternalConsumer)], Continue),
           Sequence(fetches, f => IntakeFetch(f, running, codec)))
  }

  /** Once set up, the prototype dispatcher never leaves its loop. */
  lemma DispatcherNeverStops(consumers: map<string, ConsumerConfig>, addRefused: bool,
                             subscribeRefused: bool, fetches: seq<Fetched>, codec: Codec<ProtoPayload>)
    requires CreateAccepted(consumers, InternalConsumer, Intake.IntakeConfig, addRefused) && !subscribeRefused
    ensures ConsumeInternalRun(consumers, addRefused, subscribeRefused, fetches, codec).control == Continue
  {
    var running := consumers[InternalConsumer := Intake.IntakeConfig];
    SequenceContinues(fetches, f => IntakeFetch(f, running, codec));
  }

  /** One task message: it is settled exactly once, acked when it decodes
      and is due and naked otherwise, and nothing is published. */
  function TaskStep(d: Delivery, codec: Codec<ProtoPayload>): (s: Step)
    ensures s.control == Continue
    ensures |s.effects| == 1
    ensures Acked(d.msg.id) in s.effects
            <==> codec.decode(d.msg.data).Some? && d.now >= codec.decode(d.msg.data).value.nextExec
    ensures Naked(d.msg.id) in s.effects
            <==> !(codec.decode(d.msg.data).Some? && d.now >= codec.decode(d.msg.data).value.nextExec)
    ensures forall e :: e in s.effects ==> !e.Published?
  {
    match codec.decode(d.msg.data)
    case None => Step([Naked(d.msg.id)], Continue)
    case Some(p) =>
      if d.now >= p.nextExec then Step([Acked(d.msg.id)], Continue) else Step([Naked(d.msg.id)], Continue)
  }

  function TaskFetch(f: Fetched, codec: Codec<ProtoPayload>): (s: Step)
    ensures s.control == Continue
    ensures !f.Batch? ==> s.effects == []
  {
    match f
    case Batch(ds) =>
      SequenceContinues(ds, d => TaskStep(d, codec));
      Sequence(ds, d => TaskStep(d, codec))
    case _ => Step([], Continue)
  }

  /** The prototype task loop against a finite script of fetch outcomes: the
      ack wait is parsed before anything else, then the consumer is created
      and bound. */
  function TaskConsumer(consumers: map<string, ConsumerConfig>, taskId: string, ackWait: string,
                        addRefused: bool, subscribeRefused: bool, fetches: seq<Fetched>,
                        parse: TaskLoop.Parser, codec: Codec<ProtoPayload>): Step
  {
    match parse(ackWait)
    case None => Step([], Return)
    case Some(wait) =>
      if !CreateAccepted(consumers, ConsumerName(taskId), TaskLoop.TaskConsumerConfig(taskId, wait), addRefused)
         || subscribeRefused
      then Step([], Return)
      else Then(Step([PullSubscribed(ExecuteSubject(taskId), ConsumerName(taskId))], Continue),
                Sequence(fetches, f => TaskFetch(f, codec)))
  }

  /** The prototype never republishes: whatever is fetched, a running task
      loop only acks and naks. */
  lemma TaskLoopNeverPublishes(consumers: map<string, ConsumerConfig>, taskId: string, ackWait: string,
                               addRefused: bool, subscribeRefused: bool, fetches: seq<Fetched>,
                               parse: TaskLoop.Parser, codec: Codec<ProtoPayload>)
    ensures var s := TaskConsumer(consumers, taskId, ackWait, addRefused, subscribeRefused, fetches, parse, codec);
      forall e :: e in s.effects ==> !e.Published?
  {
    var f := g => TaskFetch(g, codec);
    forall g | g in fetches
      ensures forall e :: e in f(g).effects ==> !e.Published?
    {
      if g.Batch? {
        SequenceEffectsWithin(g.deliveries, d => TaskStep(d, codec), (e: Effect) => !e.Published?);
      }
    }
    SequenceEffectsWithin(fetches, f, (e: Effect) => !e.Published?);
  }



  /** An unparseable ack wait ends the task loop before it creates a consumer. */
  lemma UnparseableWaitCreatesNothing(consumers: map<string, ConsumerConfig>, taskId: string, ackWait: string,
                                      addRefused: bool, subscribeRefused: bool, fetches: seq<Fetched>,
                                      parse: TaskLoop.Parser, codec: Codec<ProtoPayload>)
    requires parse(ackWait).None?
    ensures TaskConsumer(consumers, taskId, ackWait, addRefused, subscribeRefused, fetches, parse, codec)
            == Step([], Return)
  {
  }

  method ConsumeInternalMessage(b: Broker, d: Delivery, codec: Codec<ProtoPayload>)
    modifies b
    ensures b.consumers == old(b.consumers)
    ensures b.trace == old(b.trace) + IntakeStep(d, old(b.consumers), codec).effects
  {
    var decoded := codec.decode(d.msg.data);
    if decoded.None? {
      b.Nak(d.msg);
      return;
    }
    var payload := decoded.value;
    if !b.Lookup(ConsumerName(payload.taskId), d.lookupFailed) {
      b.Spawn(SpawnedRaw(payload.taskId, payload.ackWait));
    }
    b.Ack(d.msg);
  }

  method ConsumeInternalFetch(b: Broker, f: Fetched, codec: Codec<ProtoPayload>)
    modifies b
    ensures b.consumers == old(b.consumers)
    ensures b.trace == old(b.trace) + IntakeFetch(f, old(b.consumers), codec).effects
  {
    if !f.Batch? {
      return;
    }
    var ds := f.deliveries;
    var known := b.consumers;
    var step := d => IntakeStep(d, known, codec);
    var i := 0;
    while i < |ds|
      invariant 0 <= i <= |ds|
      invariant b.consumers == known
      invariant b.trace == old(b.trace) + Sequence(ds[..i], step).effects
      invariant Sequence(ds[..i], step).control == Continue
    {
      SequencePrefix(ds, i, step);
      ConsumeInternalMessage(b, ds[i], codec);
      i := i + 1;
    }
    SequenceDone(ds, i, step);
  }

  /** consumeInternal (main.go:140-191) against a finite script of fetches. */
  method ConsumeInternal(b: Broker, addRefused: bool, subscribeRefused: bool, fetches: seq<Fetched>,
                         codec: Codec<ProtoPayload>)
    returns (c: Control)
    modifies b
    ensures b.consumers == if CreateAccepted(old(b.consumers), InternalConsumer, Intake.IntakeConfig, addRefused)
                           then old(b.consumers)[InternalConsumer := Intake.IntakeConfig] else old(b.consumers)
    ensures var s := ConsumeInternalRun(old(b.consumers), addRefused, subscribeRefused, fetches, codec);
      b.trace == old(b.trace) + s.effects && c == s.control
  {
    var created := b.AddConsumer(InternalConsumer, Intake.IntakeConfig, addRefused);
    if !created {
      return Return;
    }
    var subscribed := b.PullSubscribe(IntakeSubject, InternalConsumer, subscribeRefused);
    if !subscribed {
      return Return;
    }
    var running := b.consumers;
    RunIntakeLoop(b, fetches, codec);
    SequenceContinues(fetches, g => IntakeFetch(g, running, codec));
    return Continue;
  }

  /** The fetch loop of the bound prototype intake consumer (main.go:157-190). */
  method RunIntakeLoop(b: Broker, fetches: seq<Fetched>, codec: Codec<ProtoPayload>)
    modifies b
    ensures b.consumers == old(b.consumers)
    ensures b.trace == old(b.trace) + Sequence(fetches, g => IntakeFetch(g, old(b.consumers), codec)).effects
  {
    var running := b.consumers;
    var step := g => IntakeFetch(g, running, codec);
    var i := 0;
    while i < |fetches|
      invariant 0 <= i <= |fetches|
      invariant b.consumers == running
      invariant b.trace == old(b.trace) + Sequence(fetches[..i], step).effects
      invariant Sequence(fetches[..i], step).control == Continue
    {
      SequencePrefix(fetches, i, step);
      ConsumeInternalFetch(b, fetches[i], codec);
      i := i + 1;
    }
    SequenceDone(fetches, i, step);
  }

  method HandleTaskMessage(b: Broker, d: Delivery, codec: Codec<ProtoPayload>)
    modifies b
    ensures b.consumers == old(b.consumers)
    ensures b.trace == old(b.trace) + TaskStep(d, codec).effects
  {
    var decoded := codec.decode(d.msg.data);
    if decoded.None? {
      b.Nak(d.msg);
      return;
    }
    if d.now >= decoded.value.nextExec {
      b.Ack(d.msg);
    } else {
      b.Nak(d.msg);
    }
  }

  method HandleTaskFetch(b: Broker, f: Fetched, codec: Codec<ProtoPayload>)
    modifies b
    ensures b.consumers == old(b.consumers)
    ensures b.trace == old(b.trace) + TaskFetch(f, codec).effects
  {
    if !f.Batch? {
      return;
    }
    var ds := f.deliveries;
    var step := d => TaskStep(d, codec);
    var i := 0;
    while i < |ds|
      invariant 0 <= i <= |ds|
      invariant b.consumers == old(b.consumers)
      invariant b.trace == old(b.trace) + Sequence(ds[..i], step).effects
      invariant Sequence(ds[..i], step).control == Continue
    {
      SequencePrefix(ds, i, step);
      HandleTaskMessage(b, ds[i], codec);
      i := i + 1;
    }
    SequenceDone(ds, i, step);
  }

  /** startTaskConsumer (main.go:194-253) against a finite script of fetches. */
  method StartTaskConsumer(b: Broker, taskId: string, ackWait: string, addRefused: bool, subscribeRefused: bool,
                           fetches: seq<Fetched>, parse: TaskLoop.Parser, codec: Codec<ProtoPayload>)
    returns (c: Control)
    modifies b
    ensures parse(ackWait).None? ==> b.consumers == old(b.consumers)
    ensures parse(ackWait).Some? ==>
      var cfg := TaskLoop.TaskConsumerConfig(taskId, parse(ackWait).value);
      b.consumers == if CreateAccepted(old(b.consumers), ConsumerName(taskId), cfg, addRefused)
                     then old(b.consumers)[ConsumerName(taskId) := cfg] else old(b.consumers)
    ensures var s := TaskConsumer(old(b.consumers), taskId, ackWait, addRefused, subscribeRefused, fetches, parse, codec);
      b.trace == old(b.trace) + s.effects && c == s.control
  {
    var subject := ExecuteSubject(taskId);
    var name := ConsumerName(taskId);
    var wait := parse(ackWait);
    if wait.None? {
      return Return;
    }
    var created := b.AddConsumer(name, TaskLoop.TaskConsumerConfig(taskId, wait.value), addRefused);
    if !created {
      return Return;
    }
    var subscribed := b.PullSubscribe(subject, name, subscribeRefused);
    if !subscribed {
      return Return;
    }
    RunTaskLoop(b, fetches, codec);
    SequenceContinues(fetches, g => TaskFetch(g, codec));
    return Continue;
  }

  /** The fetch loop of a bound prototype task consumer (main.go:222-252). */
  method RunTaskLoop(b: Broker, fetches: seq<Fetched>, codec: Codec<ProtoPayload>)
    modifies b
    ensures b.consumers == old(b.consumers)
    ensures b.trace == old(b.trace) + Sequence(fetches, g => TaskFetch(g, codec)).effects
  {
    var step := g => TaskFetch(g, codec);
    var i := 0;
    while i < |fetches|
      invariant 0 <= i <= |fetches|
      invariant b.consumers == old(b.consumers)
      invariant b.trace == old(b.trace) + Sequence(fetches[..i], step).effects
      invariant Sequence(fetches[..i], step).control == Continue
    {
      SequencePrefix(fetches, i, step);
      HandleTaskFetch(b, fetches[i], codec);
      i := i + 1;
    }
    SequenceDone(fetches, i, step);
  }
}
