/** The worker of the earlier push-based variant: one check-then-create
    helper provisions a durable consumer and binds a push handler, the intake
    handler provisions a consumer per task, and the execution handler acks a
    task once its time has come. */
module LegacyWorker {
  import opened Gateway
  import opened Naming
  import opened LegacyData

  /** The fixed ack wait of the intake consumer: 30 seconds, in nanoseconds. */
  const IntakeAckWait: int := 30_000_000_000

  datatype ProvisionError = CreateFailed | SubscribeFailed

  /** What provisioning did: the consumers afterwards, the effects, and either
      whether the consumer was newly created or why provisioning failed. */
  datatype Provisioned = Provisioned(
    consumers: map<string, ConsumerConfig>,
    effects: seq<Effect>,
    outcome: Result<bool, ProvisionError>)

  /** What one pushed message did: the consumers afterwards and the step. */
  datatype Handled = Handled(consumers: map<string, ConsumerConfig>, step: Step)

  /** createOrGetConsumer against a broker holding `consumers`: look the name
      up, add the consumer whenever the lookup does not find it (absent, or
      the lookup itself erred), then subscribe. */
  function Provision(consumers: map<string, ConsumerConfig>, name: string, subject: string, ackWait: int,
                     lookupFailed: bool, addRefused: bool, subscribeRefused: bool): (r: Provisioned)
    ensures name in consumers ==> r.consumers == consumers
    ensures forall n :: n != name ==> (n in r.consumers <==> n in consumers)
    ensures forall n :: n != name && n in consumers ==> r.consumers[n] == consumers[n]
    ensures name in r.consumers <==> name in consumers || !addRefused
    ensures name !in consumers && !addRefused ==> r.consumers[name] == ConsumerConfig(subject, ackWait)
    ensures r.outcome == Failure(CreateFailed)
            <==> !Found(consumers, name, lookupFailed)
                 && !CreateAccepted(consumers, name, ConsumerConfig(subject, ackWait), addRefused)
    ensures r.outcome.Success?
            <==> (Found(consumers, name, lookupFailed)
                  || CreateAccepted(consumers, name, ConsumerConfig(subject, ackWait), addRefused))
                 && !subscribeRefused
    ensures r.outcome.Success? ==> r.outcome.value == !Found(consumers, name, lookupFailed)
    ensures r.effects == if r.outcome.Success? then [Subscribed(subject)] else []
  {
    var cfg := ConsumerConfig(subject, ackWait);
    if Found(consumers, name, lookupFailed) then
      if subscribeRefused then Provisioned(consumers, [], Failure(SubscribeFailed))
      else Provisioned(consumers, [Subscribed(subject)], Success(false))
    else if !CreateAccepted(consumers, name, cfg, addRefused) then Provisioned(consumers, [], Failure(CreateFailed))
    else
      var added := consumers[name := cfg];
      if subscribeRefused then Provisioned(added, [], Failure(SubscribeFailed))
      else Provisioned(added, [Subscribed(subject)], Success(true))
  }

  /** Provisioning a name a second time, with any configuration and whatever
      the broker answers, adds nothing: a consumer is added at most once, and
      an existing one keeps its configuration; when the second lookup
      succeeds, the consumer is reported as existing and only the
      subscription can fail. */
  lemma ProvisionAddsOnce(consumers: map<string, ConsumerConfig>, name: string, subject: string, ackWait: int,
                          lookupFailed: bool, addRefused: bool, subscribeRefused: bool,
                          subject2: string, ackWait2: int,
                          lookupFailed2: bool, addRefused2: bool, subscribeRefused2: bool)
    requires Provision(consumers, name, subject, ackWait, lookupFailed, addRefused, subscribeRefused).outcome
             != Failure(CreateFailed)
    ensures var first := Provision(consumers, name, subject, ackWait, lookupFailed, addRefused, subscribeRefused);
      var second := Provision(first.consumers, name, subject2, ackWait2, lookupFailed2, addRefused2, subscribeRefused2);
      && second.consumers == first.consumers
      && (!lookupFailed2 ==> second.outcome != Success(true) && (second.outcome.Success? <==> !subscribeRefused2))
  {
  }

  /** createOrGetConsumer (consumer.go:31-60). */
  method CreateOrGetConsumer(b: Broker, name: string, subject: string, ackWait: int,
                             lookupFailed: bool, addRefused: bool, subscribeRefused: bool)
    returns (r: Result<bool, ProvisionError>)
    modifies b
    ensures var p := Provision(old(b.consumers), name, subject, ackWait, lookupFailed, addRefused, subscribeRefused);
      b.consumers == p.consumers && b.trace == old(b.trace) + p.effects && r == p.outcome
  {
    var found := b.Lookup(name, lookupFailed);
    if !found {
      var ok := b.AddConsumer(name, ConsumerConfig(subject, ackWait), addRefused);
      if !ok {
        return Failure(CreateFailed);
      }
    }
    var subscribed := b.Subscribe(subject, subscribeRefused);
    if !subscribed {
      return Failure(SubscribeFailed);
    }
    return Success(!found);
  }

  /** One message pushed to the intake handler while the broker holds
      `consumers`; `streamFailed` is the stream lookup failing, which ends the
      process. */
  function InternalStep(d: Delivery, consumers: map<string, ConsumerConfig>, codec: Codec<LegacyPayload>,
                        streamFailed: bool, addRefused: bool, subscribeRefused: bool): (h: Handled)
    ensures codec.decode(d.msg.data).None? ==> h == Handled(consumers, Step([], Continue))
    ensures codec.decode(d.msg.data).Some? && streamFailed ==> h == Handled(consumers, Step([], Fatal))
  {
    match codec.decode(d.msg.data)
    case None => Handled(consumers, Step([], Continue))
    case Some(p) =>
      if streamFailed then Handled(consumers, Step([], Fatal))
      else
        var prov := Provision(consumers, ConsumerName(p.taskId), ExecuteSubject(p.taskId), p.ackWait,
                              d.lookupFailed, addRefused, subscribeRefused);
        Handled(prov.consumers, Step(prov.effects + [Acked(d.msg.id)], Continue))
  }

  /** A decoded intake message, once the stream is found, is acked exactly
      once and last, whether or not provisioning succeeded, and is never
      naked; the task's consumer is named after the task, filters on its
      execute subject and carries the payload's ack wait; an existing
      consumer is left as it is. */
  lemma InternalDecision(d: Delivery, consumers: map<string, ConsumerConfig>, codec: Codec<LegacyPayload>,
                         addRefused: bool, subscribeRefused: bool, p: LegacyPayload)
    requires codec.decode(d.msg.data) == Some(p)
    ensures var h := InternalStep(d, consumers, codec, false, addRefused, subscribeRefused);
      && h.step.control == Continue
      && |h.step.effects| > 0 && h.step.effects[|h.step.effects| - 1] == Acked(d.msg.id)
      && Acked(d.msg.id) !in h.step.effects[..|h.step.effects| - 1]
      && Naked(d.msg.id) !in h.step.effects
      && (Subscribed(ExecuteSubject(p.taskId)) in h.step.effects
          <==> (Found(consumers, ConsumerName(p.taskId), d.lookupFailed)
                || CreateAccepted(consumers, ConsumerName(p.taskId),
                                  ConsumerConfig(ExecuteSubject(p.taskId), p.ackWait), addRefused))
               && !subscribeRefused)
      && (ConsumerName(p.taskId) in consumers ==> h.consumers == consumers)
      && (ConsumerName(p.taskId) !in consumers && !addRefused ==>
            h.consumers == consumers[ConsumerName(p.taskId) := ConsumerConfig(ExecuteSubject(p.taskId), p.ackWait)])
      && (ConsumerName(p.taskId) !in consumers && addRefused ==> h.consumers == consumers)
  {
    var name, cfg := ConsumerName(p.taskId), ConsumerConfig(ExecuteSubject(p.taskId), p.ackWait);
    var prov := Provision(consumers, name, ExecuteSubject(p.taskId), p.ackWait,
                          d.lookupFailed, addRefused, subscribeRefused);
    var h := InternalStep(d, consumers, codec, false, addRefused, subscribeRefused);
    assert h == Handled(prov.consumers, Step(prov.effects + [Acked(d.msg.id)], Continue));
    assert h.step.effects[..|h.step.effects| - 1] == prov.effects;
    if name !in consumers && !addRefused {
      assert prov.consumers == consumers[name := cfg];
    }
  }

  /** handleInternalMessage (consumer.go:62-86). */
  method HandleInternalMessage(b: Broker, d: Delivery, codec: Codec<LegacyPayload>,
                               streamFailed: bool, addRefused: bool, subscribeRefused: bool)
    returns (c: Control)
    modifies b
    ensures var h := InternalStep(d, old(b.consumers), codec, streamFailed, addRefused, subscribeRefused);
      b.consumers == h.consumers && b.trace == old(b.trace) + h.step.effects && c == h.step.control
  {
    var decoded := codec.decode(d.msg.data);
    if decoded.None? {
      return Continue;
    }
    if streamFailed {
      return Fatal;
    }
    var task := decoded.value;
    var _ := CreateOrGetConsumer(b, ConsumerName(task.taskId), ExecuteSubject(task.taskId), task.ackWait,
                                 d.lookupFailed, addRefused, subscribeRefused);
    b.Ack(d.msg);
    return Continue;
  }

  /** One message pushed to a task's execution handler. */
  function ExecutionStep(d: Delivery, codec: Codec<LegacyPayload>): (s: Step)
    ensures s.control == Continue
    ensures forall e :: e in s.effects ==> e == Acked(d.msg.id)
    ensures |s.effects| <= 1
    ensures Acked(d.msg.id) in s.effects
            <==> codec.decode(d.msg.data).Some? && codec.decode(d.msg.data).value.executionTimestamp <= d.now
  {
    match codec.decode(d.msg.data)
    case None => Step([], Continue)
    case Some(p) => if p.executionTimestamp > d.now then Step([], Continue) else Step([Acked(d.msg.id)], Continue)
  }

  /** handleTaskExecution (consumer.go:88-103). */
  method HandleTaskExecution(b: Broker, d: Delivery, codec: Codec<LegacyPayload>)
    modifies b
    ensures b.consumers == old(b.consumers)
    ensures b.trace == old(b.trace) + ExecutionStep(d, codec).effects
  {
    var decoded := codec.decode(d.msg.data);
    if decoded.None? {
      return;
    }
    if decoded.value.executionTimestamp > d.now {
      return;
    }
    b.Ack(d.msg);
  }

  /** Start-up of the worker: provision the intake consumer with a fixed
      30-second ack wait; any failure ends the process. */
  function WorkerStart(consumers: map<string, ConsumerConfig>, lookupFailed: bool, addRefused: bool,
                       subscribeRefused: bool): (h: Handled)
    ensures h.step.control == Fatal
            <==> (!Found(consumers, InternalConsumer, lookupFailed)
                  && !CreateAccepted(consumers, InternalConsumer, ConsumerConfig(IntakeSubject, IntakeAckWait), addRefused))
                 || subscribeRefused
    ensures h.step.control != Return
    ensures InternalConsumer in h.consumers <==> InternalConsumer in consumers || !addRefused
    ensures InternalConsumer !in consumers && !addRefused ==>
      h.consumers[InternalConsumer] == ConsumerConfig(IntakeSubject, IntakeAckWait)
    ensures h.step.control == Continue <==> h.step.effects == [Subscribed(IntakeSubject)]
  {
    var prov := Provision(consumers, InternalConsumer, IntakeSubject, IntakeAckWait,
                          lookupFailed, addRefused, subscribeRefused);
    Handled(prov.consumers, Step(prov.effects, if prov.outcome.Success? then Continue else Fatal))
  }

  /** RunWorker (consumer.go:15-29); once started it blocks for ever. */
  method RunWorker(b: Broker, lookupFailed: bool, addRefused: bool, subscribeRefused: bool) returns (c: Control)
    modifies b
    ensures var h := WorkerStart(old(b.consumers), lookupFailed, addRefused, subscribeRefused);
      b.consumers == h.consumers && b.trace == old(b.trace) + h.step.effects && c == h.step.control
  {
    var r := CreateOrGetConsumer(b, InternalConsumer, IntakeSubject, IntakeAckWait,
                                 lookupFailed, addRefused, subscribeRefused);
    if r.Failure? {
      return Fatal;
    }
    return Continue;
  }
}
