/** The intake dispatcher of the wired worker: a pull consumer on
    `tasks.internal` that starts a per-task loop the first time it sees a task,
    and the start-up recovery that restarts a loop for every listed consumer. */
module Intake {
  import opened Gateway
  import opened Naming
  import opened Descriptor
  import TaskLoop

  /** The intake consumer: filtered to the intake subject, server-default ack wait. */
  const IntakeConfig: ConsumerConfig := ConsumerConfig(IntakeSubject, 0)

  /** Handling one intake message while the broker holds `consumers`. */
  function IntakeStep(d: Delivery, consumers: map<string, ConsumerConfig>,
                      parse: TaskLoop.Parser, codec: Codec<TaskPayload>): (s: Step)
    ensures s.control != Fatal
    ensures codec.decode(d.msg.data).None? ==> s == Step([Naked(d.msg.id)], Continue)
  {
    match codec.decode(d.msg.data)
    case None => Step([Naked(d.msg.id)], Continue)
    case Some(p) =>
      if Found(consumers, ConsumerName(p.taskId), d.lookupFailed) then Step([Acked(d.msg.id)], Continue)
      else match parse(p.ackWait)
        case None => Step([], Return)
        case Some(wait) => Step([Spawned(p.taskId, wait), Acked(d.msg.id)], Continue)
  }

  /** A decoded intake message is never naked. A loop is started for it
      exactly when the lookup of its task's consumer fails (the consumer is
      absent or the lookup errs) and its ack wait parses; the dispatcher
      returns, with neither ack nor nak, exactly when the lookup fails and the
      ack wait does not parse; in every other case the message is acked once,
      after the start decision. */
  lemma IntakeDecision(d: Delivery, consumers: map<string, ConsumerConfig>,
                       parse: TaskLoop.Parser, codec: Codec<TaskPayload>, p: TaskPayload)
    requires codec.decode(d.msg.data) == Some(p)
    ensures var s := IntakeStep(d, consumers, parse, codec);
      && Naked(d.msg.id) !in s.effects
      && (s.control == Return <==> !Found(consumers, ConsumerName(p.taskId), d.lookupFailed) && parse(p.ackWait).None?)
      && (s.control == Return ==> s.effects == [])
      && (s.control == Continue ==>
            && |s.effects| > 0 && s.effects[|s.effects| - 1] == Acked(d.msg.id)
            && Acked(d.msg.id) !in s.effects[..|s.effects| - 1])
      && (forall e :: e in s.effects && e.Spawned? ==>
            !Found(consumers, ConsumerName(p.taskId), d.lookupFailed) && e == Spawned(p.taskId, parse(p.ackWait).value))
      && (!Found(consumers, ConsumerName(p.taskId), d.lookupFailed) && parse(p.ackWait).Some? ==>
            Spawned(p.taskId, parse(p.ackWait).value) in s.effects)
  {
  }

  /** What the dispatcher may do to the broker: ack, nak, or start a loop. */
  predicate IntakeEffect(e: Effect)
  {
    e.Acked? || e.Naked? || e.Spawned?
  }

  /** Handling one fetch of the intake loop: a timeout or a fetch error does
      nothing and the loop goes on. No fetch ends the process, and the
      dispatcher only acks, naks and starts loops. */
  function IntakeFetch(f: Fetched, consumers: map<string, ConsumerConfig>,
                       parse: TaskLoop.Parser, codec: Codec<TaskPayload>): (s: Step)
    ensures s.control != Fatal
    ensures forall e :: e in s.effects ==> IntakeEffect(e)
    ensures !f.Batch? ==> s.effects == [] && s.control == Continue
  {
    match f
    case Batch(ds) =>
      var step := d => IntakeStep(d, consumers, parse, codec);
      SequenceAvoids(ds, step, Fatal);
      SequenceEffectsWithin(ds, step, IntakeEffect);
      Sequence(ds, step)
    case _ => Step([], Continue)
  }

  /** The whole dispatcher against a finite script of fetch outcomes: create
      the intake consumer, bind a pull subscription, then handle every fetch
      until a handler returns. */
  function ConsumeInternalRun(consumers: map<string, ConsumerConfig>, addRefused: bool,
                              subscribeRefused: bool, fetches: seq<Fetched>,
                              parse: TaskLoop.Parser, codec: Codec<TaskPayload>): Step
  {
    if !CreateAccepted(consumers, InternalConsumer, IntakeConfig, addRefused) || subscribeRefused
    then Step([], Return)
    else
      var running := consumers[InternalConsumer := IntakeConfig];
      Then(Step([PullSubscribed(IntakeSubject, InternalConsumer)], Continue),
           Sequence(fetches, f => IntakeFetch(f, running, parse, codec)))
  }

  /** When the intake consumer cannot be created or bound, the dispatcher
      returns before fetching anything. */
  lemma DispatcherStopsBeforeFetch(consumers: map<string, ConsumerConfig>, addRefused: bool,
                                   subscribeRefused: bool, fetches: seq<Fetched>,
                                   parse: TaskLoop.Parser, codec: Codec<TaskPayload>)
    requires !CreateAccepted(consumers, InternalConsumer, IntakeConfig, addRefused) || subscribeRefused
    ensures ConsumeInternalRun(consumers, addRefused, subscribeRefused, fetches, parse, codec)
            == Step([], Return)
  {
  }

  /** Adding the intake consumer changes no task lookup: no consumer name of
      a task is the internal consumer's. */
  lemma IntakeConsumerHidesNoTask(consumers: map<string, ConsumerConfig>, taskId: string)
    ensures ConsumerName(taskId) in consumers[InternalConsumer := IntakeConfig]
            <==> ConsumerName(taskId) in consumers
  {
    NamesAreDistinct(taskId, taskId);
  }

  /** One intake message (internal.go:85-107). */
  method ConsumeInternalMessage(b: Broker, d: Delivery, parse: TaskLoop.Parser, codec: Codec<TaskPayload>)
    returns (c: Control)
    modifies b
    ensures b.consumers == old(b.consumers)
    ensures b.trace == old(b.trace) + IntakeStep(d, old(b.consumers), parse, codec).effects
    ensures c == IntakeStep(d, old(b.consumers), parse, codec).control
  {
    var decoded := codec.decode(d.msg.data);
    if decoded.None? {
      b.Nak(d.msg);
      return Continue;
    }
    var payload := decoded.value;
    if !b.Lookup(ConsumerName(payload.taskId), d.lookupFailed) {
      var wait := parse(payload.ackWait);
      if wait.None? {
        return Return;
      }
      b.Spawn(Spawned(payload.taskId, wait.value));
    }
    b.Ack(d.msg);
    return Continue;
  }

  /** One fetch of the intake loop (internal.go:73-107). */
  method ConsumeInternalFetch(b: Broker, f: Fetched, parse: TaskLoop.Parser, codec: Codec<TaskPayload>)
    returns (c: Control)
    modifies b
    ensures b.consumers == old(b.consumers)
    ensures b.trace == old(b.trace) + IntakeFetch(f, old(b.consumers), parse, codec).effects
    ensures c == IntakeFetch(f, old(b.consumers), parse, codec).control
  {
    c := Continue;
    if !f.Batch? {
      return;
    }
    var ds := f.deliveries;
    var known := b.consumers;
    var step := d => IntakeStep(d, known, parse, codec);
    var i := 0;
    while i < |ds| && c == Continue
      invariant 0 <= i <= |ds|
      invariant b.consumers == known
      invariant b.trace == old(b.trace) + Sequence(ds[..i], step).effects
      invariant c == Sequence(ds[..i], step).control
    {
      SequencePrefix(ds, i, step);
      c := ConsumeInternalMessage(b, ds[i], parse, codec);
      i := i + 1;
    }
    SequenceDone(ds, i, step);
  }

  /** consumeInternal (internal.go:53-109) against a finite script of fetches. */
  method ConsumeInternal(b: Broker, addRefused: bool, subscribeRefused: bool, fetches: seq<Fetched>,
                         parse: TaskLoop.Parser, codec: Codec<TaskPayload>)
    returns (c: Control)
    modifies b
    ensures b.consumers == if CreateAccepted(old(b.consumers), InternalConsumer, IntakeConfig, addRefused)
                           then old(b.consumers)[InternalConsumer := IntakeConfig] else old(b.consumers)
    ensures var s := ConsumeInternalRun(old(b.consumers), addRefused, subscribeRefused, fetches, parse, codec);
      b.trace == old(b.trace) + s.effects && c == s.control
  {
    var created := b.AddConsumer(InternalConsumer, IntakeConfig, addRefused);
    if !created {
      return Return;
    }
    var subscribed := b.PullSubscribe(IntakeSubject, InternalConsumer, subscribeRefused);
    if !subscribed {
      return Return;
    }
    c := RunIntakeLoop(b, fetches, parse, codec);
  }

  /** The fetch loop of the bound intake consumer (internal.go:72-108); the
      consumers stay as they were when the loop started. */
  method RunIntakeLoop(b: Broker, fetches: seq<Fetched>, parse: TaskLoop.Parser, codec: Codec<TaskPayload>)
    returns (c: Control)
    modifies b
    ensures b.consumers == old(b.consumers)
    ensures b.trace == old(b.trace) + Sequence(fetches, g => IntakeFetch(g, old(b.consumers), parse, codec)).effects
    ensures c == Sequence(fetches, g => IntakeFetch(g, old(b.consumers), parse, codec)).control
  {
    var running := b.consumers;
    var step := g => IntakeFetch(g, running, parse, codec);
    c := Continue;
    var i := 0;
    while i < |fetches| && c == Continue
      invariant 0 <= i <= |fetches|
      invariant b.consumers == running
      invariant b.trace == old(b.trace) + Sequence(fetches[..i], step).effects
      invariant c == Sequence(fetches[..i], step).control
    {
      SequencePrefix(fetches, i, step);
      c := ConsumeInternalFetch(b, fetches[i], parse, codec);
      i := i + 1;
    }
    SequenceDone(fetches, i, step);
  }

  /** The loop restarted for a listed consumer: the task id read off its
      name and the consumer's configured ack wait. */
  function Respawn(name: string, cfg: ConsumerConfig): Effect
  {
    Spawned(TaskIdOf(name), cfg.ackWait)
  }

  /** The loops restarted, in listing order, for the consumers `names`. */
  function Respawns(names: seq<string>, consumers: map<string, ConsumerConfig>): (r: seq<Effect>)
    requires forall n :: n in names ==> n in consumers
    ensures |r| == |names|
    ensures forall k :: 0 <= k < |names| ==> r[k] == Respawn(names[k], consumers[names[k]])
    decreases |names|
  {
    if names == [] then []
    else Respawns(names[..|names| - 1], consumers) + [Respawn(names[|names| - 1], consumers[names[|names| - 1]])]
  }

  /** A consumer created by a task loop is restarted under its own task id,
      provided that id contains no "consumer-". */
  lemma RespawnRestoresTask(taskId: string, ackWait: int)
    requires !Occurs(ConsumerPrefix, taskId)
    ensures Respawn(ConsumerName(taskId), TaskLoop.TaskConsumerConfig(taskId, ackWait)) == Spawned(taskId, ackWait)
  {
    TaskIdOfConsumerName(taskId);
  }

  /** The intake consumer is restarted as a task loop for a task named
      "internal-consumer", whose own consumer is a different one. */
  lemma RespawnOfIntakeConsumer()
    ensures Respawn(InternalConsumer, IntakeConfig) == Spawned(InternalConsumer, 0)
    ensures ConsumerName(TaskIdOf(InternalConsumer)) != InternalConsumer
  {
    TaskIdOfInternalConsumer();
    NamesAreDistinct(InternalConsumer, InternalConsumer);
  }

  /** spawnExistingTaskConsumers (internal.go:39-51): one loop per consumer of
      the stream, in the order the listing returns them. */
  method SpawnExistingTaskConsumers(b: Broker) returns (listed: seq<string>)
    modifies b
    ensures b.consumers == old(b.consumers)
    ensures forall n :: n in listed <==> n in old(b.consumers)
    ensures forall i, j :: 0 <= i < j < |listed| ==> listed[i] != listed[j]
    ensures b.trace == old(b.trace) + Respawns(listed, old(b.consumers))
  {
    var consumers := b.consumers;
    listed := b.ListConsumers();
    var i := 0;
    while i < |listed|
      invariant 0 <= i <= |listed|
      invariant b.consumers == consumers
      invariant b.trace == old(b.trace) + Respawns(listed[..i], consumers)
    {
      assert listed[..i + 1][..i] == listed[..i];
      b.Spawn(Respawn(listed[i], consumers[listed[i]]));
      i := i + 1;
    }
    assert listed[..i] == listed;
  }
}
