/** The per-task executor: a pull consumer on `tasks.execute.<id>` that runs an
    occurrence once it is due, naks it while it is not, and republishes the
    next occurrence while iterations remain. */
module TaskLoop {
  import opened Gateway
  import opened Naming
  import opened Descriptor

  /** time.ParseDuration: nanoseconds, or None for text it rejects. */
  type Parser = string -> Option<int>

  /** The readiness test: the clock is at or after the descriptor's time. */
  predicate Due(p: TaskPayload, now: int)
  {
    now >= p.nextExec
  }

  /** The delivery decodes to a descriptor that is due. */
  predicate Executes(d: Delivery, codec: Codec<TaskPayload>)
  {
    codec.decode(d.msg.data).Some? && Due(codec.decode(d.msg.data).value, d.now)
  }

  /** The descriptor republished after `p` has run: the next iteration, due
      `delay` after the clock read `later`. */
  function NextOccurrence(p: TaskPayload, later: int, delay: int): TaskPayload
  {
    p.(iter := p.iter + 1, nextExec := later + delay)
  }

  /** Handling one message of the loop for `taskId`. */
  function TaskStep(taskId: string, d: Delivery, parse: Parser, codec: Codec<TaskPayload>): (s: Step)
    ensures s.control != Return
    ensures 0 < |s.effects| <= 2
    ensures s.effects[0] == if Executes(d, codec) then Acked(d.msg.id) else Naked(d.msg.id)
    ensures forall e :: e in s.effects[1..] ==> e.Published? && e.subject == ExecuteSubject(taskId)
    ensures !Executes(d, codec) ==> s == Step([Naked(d.msg.id)], Continue)
    ensures s.control == Fatal ==> s.effects == [Acked(d.msg.id)]
  {
    match codec.decode(d.msg.data)
    case None => Step([Naked(d.msg.id)], Continue)
    case Some(p) =>
      if !Due(p, d.now) then Step([Naked(d.msg.id)], Continue)
      else if p.iter >= p.maxIter then Step([Acked(d.msg.id)], Continue)
      else match parse(p.ackWait)
        case None => Step([Acked(d.msg.id)], Fatal)
        case Some(delay) =>
          match codec.encode(NextOccurrence(p, d.later, delay))
          case None => Step([Acked(d.msg.id)], Fatal)
          case Some(bytes) =>
            if d.publishRefused then Step([Acked(d.msg.id)], Fatal)
            else Step([Acked(d.msg.id), Published(ExecuteSubject(taskId), bytes)], Continue)
  }

  /** A step publishes exactly when a due descriptor below its iteration bound
      has a parseable ack wait and the republish goes through; the republished
      descriptor decodes to the next occurrence of the same task. */
  lemma RepublishedPayload(taskId: string, d: Delivery, parse: Parser, codec: Codec<TaskPayload>, p: TaskPayload)
    requires RoundTrips(codec)
    requires codec.decode(d.msg.data) == Some(p)
    ensures var s := TaskStep(taskId, d, parse, codec);
      |s.effects| == 2 <==>
        && Due(p, d.now) && p.iter < p.maxIter && parse(p.ackWait).Some?
        && codec.encode(NextOccurrence(p, d.later, parse(p.ackWait).value)).Some?
        && !d.publishRefused
    ensures var s := TaskStep(taskId, d, parse, codec);
      |s.effects| == 2 ==>
        var q := NextOccurrence(p, d.later, parse(p.ackWait).value);
        && s.effects[1] == Published(ExecuteSubject(taskId), codec.encode(q).value)
        && codec.decode(s.effects[1].data) == Some(q)
        && q.iter == p.iter + 1 <= q.maxIter
        && q.taskId == p.taskId && q.ackWait == p.ackWait && q.maxIter == p.maxIter
        && q.nextExec == d.later + parse(p.ackWait).value
    ensures var s := TaskStep(taskId, d, parse, codec);
      s.control == Fatal <==>
        && Due(p, d.now) && p.iter < p.maxIter
        && !(&& parse(p.ackWait).Some?
             && codec.encode(NextOccurrence(p, d.later, parse(p.ackWait).value)).Some?
             && !d.publishRefused)
    ensures Due(p, d.now) && p.iter >= p.maxIter ==>
      TaskStep(taskId, d, parse, codec) == Step([Acked(d.msg.id)], Continue)
  {
  }

  /** With a clock that does not run backwards and a non-negative ack wait,
      the republished occurrence is never due before the one that just ran,
      nor before `ack wait` after the readiness check. */
  lemma RepublishNotEarlier(p: TaskPayload, now: int, later: int, delay: int)
    requires Due(p, now) && now <= later && delay >= 0
    ensures NextOccurrence(p, later, delay).nextExec >= now + delay
    ensures NextOccurrence(p, later, delay).nextExec >= p.nextExec
  {
  }

  /** The descriptors run one after another when every delivery of a task is
      due and every republish goes through; `laters[k]` is the clock read
      after the k-th run and `delay` the parsed ack wait. */
  function Chain(p: TaskPayload, delay: int, laters: seq<int>): seq<TaskPayload>
    decreases |laters|
  {
    if p.iter < p.maxIter && laters != [] then
      [p] + Chain(NextOccurrence(p, laters[0], delay), delay, laters[1..])
    else [p]
  }

  /** Bounded recurrence: a chain holds at most `maxIter - iter` republished
      descriptors after the first, their iterations count up by one, so no
      two are alike, and none exceeds the bound. */
  lemma {:induction false} ChainBounded(p: TaskPayload, delay: int, laters: seq<int>)
    ensures var c := Chain(p, delay, laters);
      && |c| <= (if p.iter < p.maxIter then p.maxIter - p.iter else 0) + 1
      && c[0] == p
      && (forall k :: 0 <= k < |c| ==> c[k].iter == p.iter + k)
      && (forall k :: 0 < k < |c| ==> c[k].iter <= p.maxIter)
      && (forall k :: 0 <= k < |c| ==>
            c[k].taskId == p.taskId && c[k].ackWait == p.ackWait && c[k].maxIter == p.maxIter)
    decreases |laters|
  {
    if p.iter < p.maxIter && laters != [] {
      var q := NextOccurrence(p, laters[0], delay);
      ChainBounded(q, delay, laters[1..]);
      var c := Chain(p, delay, laters);
      var rest := Chain(q, delay, laters[1..]);
      assert c == [p] + rest;
      forall k | 0 < k < |c|
        ensures c[k] == rest[k - 1]
      {
      }
    }
  }

  /** A task the client schedules with no iteration bound runs once. */
  lemma ChainWithoutIterations(p: TaskPayload, delay: int, laters: seq<int>)
    requires p.iter == 0 && p.maxIter == 0
    ensures Chain(p, delay, laters) == [p]
  {
  }

  /** The k-th descriptor of `c` is the reschedule of the one before it,
      which was below its bound. */
  predicate Linked(c: seq<TaskPayload>, delay: int, laters: seq<int>, k: nat)
    requires 0 < k < |c| && k <= |laters|
  {
    c[k - 1].iter < c[k - 1].maxIter && c[k] == NextOccurrence(c[k - 1], laters[k - 1], delay)
  }

  /** Consecutive descriptors of a chain are linked by the loop's reschedule:
      each but the last is below its bound and is followed by its next
      occurrence after the matching clock read; a chain that stops before the
      clock reads run out stops at the bound. */
  lemma {:induction false} ChainLinks(p: TaskPayload, delay: int, laters: seq<int>)
    ensures var c := Chain(p, delay, laters);
      && |c| <= |laters| + 1
      && (forall k: nat :: 0 < k < |c| ==> Linked(c, delay, laters, k))
      && (|c| <= |laters| ==> c[|c| - 1].iter >= c[|c| - 1].maxIter)
    decreases |laters|
  {
    if p.iter < p.maxIter && laters != [] {
      var q := NextOccurrence(p, laters[0], delay);
      ChainLinks(q, delay, laters[1..]);
      ChainBounded(q, delay, laters[1..]);
      var c := Chain(p, delay, laters);
      var rest := Chain(q, delay, laters[1..]);
      assert c == [p] + rest;
      forall k: nat | 1 < k < |c|
        ensures Linked(c, delay, laters, k)
      {
        assert Linked(rest, delay, laters[1..], k - 1);
        assert c[k] == rest[k - 1] && c[k - 1] == rest[k - 2];
        assert laters[k - 1] == laters[1..][k - 2];
      }
    }
  }

  /** The loop republishes exactly the chain: a due delivery of the k-th
      descriptor, handled with the k-th later clock read, republishes the
      bytes of the (k+1)-th when there is one, and after the last one only
      acks and carries on. */
  lemma ChainRepublishes(taskId: string, p: TaskPayload, delay: int, laters: seq<int>,
                         parse: Parser, codec: Codec<TaskPayload>, k: nat, d: Delivery)
    requires RoundTrips(codec)
    requires parse(p.ackWait) == Some(delay)
    requires k < |Chain(p, delay, laters)| && k < |laters| && d.later == laters[k]
    requires codec.decode(d.msg.data) == Some(Chain(p, delay, laters)[k])
    requires Due(Chain(p, delay, laters)[k], d.now)
    ensures var c := Chain(p, delay, laters);
      var s := TaskStep(taskId, d, parse, codec);
      && (k + 1 < |c| && codec.encode(c[k + 1]).Some? && !d.publishRefused ==>
            && s == Step([Acked(d.msg.id), Published(ExecuteSubject(taskId), codec.encode(c[k + 1]).value)], Continue)
            && codec.decode(codec.encode(c[k + 1]).value) == Some(c[k + 1]))
      && (k + 1 == |c| ==> s == Step([Acked(d.msg.id)], Continue))
  {
    var c := Chain(p, delay, laters);
    ChainBounded(p, delay, laters);
    ChainLinks(p, delay, laters);
    if k + 1 < |c| {
      assert Linked(c, delay, laters, k + 1);
    }
    RepublishedPayload(taskId, d, parse, codec, c[k]);
  }

  /** What the loop for `taskId` may do to the broker: ack, nak, or publish
      to its own execute subject. */
  predicate TaskEffect(taskId: string, e: Effect)
  {
    e.Acked? || e.Naked? || (e.Published? && e.subject == ExecuteSubject(taskId))
  }

  /** Handling one fetch: a timeout or a fetch error does nothing and the loop
      goes on; otherwise every delivered message in turn. No fetch makes the
      loop return, and every effect is an ack, a nak or a republish of this
      task. */
  function TaskFetch(taskId: string, f: Fetched, parse: Parser, codec: Codec<TaskPayload>): (s: Step)
    ensures s.control != Return
    ensures forall e :: e in s.effects ==> TaskEffect(taskId, e)
    ensures !f.Batch? ==> s.effects == [] && s.control == Continue
  {
    match f
    case Batch(ds) =>
      var step := d => TaskStep(taskId, d, parse, codec);
      SequenceAvoids(ds, step, Return);
      assert forall d :: d in ds ==> forall e :: e in step(d).effects ==> TaskEffect(taskId, e) by {
        forall d, e | d in ds && e in step(d).effects
          ensures TaskEffect(taskId, e)
        {
          var es := step(d).effects;
          if e != es[0] {
            var k :| 0 <= k < |es| && es[k] == e;
            assert es[1..][k - 1] == e;
          }
        }
      }
      SequenceEffectsWithin(ds, step, e => TaskEffect(taskId, e));
      Sequence(ds, step)
    case _ => Step([], Continue)
  }

  /** The consumer a task's loop creates. */
  function TaskConsumerConfig(taskId: string, ackWait: int): ConsumerConfig
  {
    ConsumerConfig(ExecuteSubject(taskId), ackWait)
  }

  /** The whole loop for `taskId`, run against a finite script of fetch
      outcomes: create the durable consumer, bind a pull subscription, then
      handle every fetch until the process ends. */
  function TaskConsumer(consumers: map<string, ConsumerConfig>, taskId: string, ackWait: int,
                        addRefused: bool, subscribeRefused: bool, fetches: seq<Fetched>,
                        parse: Parser, codec: Codec<TaskPayload>): Step
  {
    if !CreateAccepted(consumers, ConsumerName(taskId), TaskConsumerConfig(taskId, ackWait), addRefused)
       || subscribeRefused
    then Step([], Return)
    else Then(Step([PullSubscribed(ExecuteSubject(taskId), ConsumerName(taskId))], Continue),
              Sequence(fetches, f => TaskFetch(taskId, f, parse, codec)))
  }

  /** The loop returns only when its consumer or subscription cannot be set
      up, and then it has done nothing; once running, only log.Fatal ends it. */
  lemma TaskConsumerReturnsOnlyOnSetup(consumers: map<string, ConsumerConfig>, taskId: string, ackWait: int,
                                       addRefused: bool, subscribeRefused: bool, fetches: seq<Fetched>,
                                       parse: Parser, codec: Codec<TaskPayload>)
    ensures var s := TaskConsumer(consumers, taskId, ackWait, addRefused, subscribeRefused, fetches, parse, codec);
      s.control == Return <==>
        !CreateAccepted(consumers, ConsumerName(taskId), TaskConsumerConfig(taskId, ackWait), addRefused)
        || subscribeRefused
    ensures var s := TaskConsumer(consumers, taskId, ackWait, addRefused, subscribeRefused, fetches, parse, codec);
      s.control == Return ==> s.effects == []
  {
    SequenceAvoids(fetches, g => TaskFetch(taskId, g, parse, codec), Return);
  }

  /** One message (task.go:49-83). */
  method HandleTaskMessage(b: Broker, taskId: string, d: Delivery, parse: Parser, codec: Codec<TaskPayload>)
    returns (c: Control)
    modifies b
    ensures b.consumers == old(b.consumers)
    ensures b.trace == old(b.trace) + TaskStep(taskId, d, parse, codec).effects
    ensures c == TaskStep(taskId, d, parse, codec).control
  {
    var decoded := codec.decode(d.msg.data);
    if decoded.None? {
      b.Nak(d.msg);
      return Continue;
    }
    var payload := decoded.value;
    if d.now >= payload.nextExec {
      b.Ack(d.msg);
      if payload.iter < payload.maxIter {
        payload := payload.(iter := payload.iter + 1);
        var delay := parse(payload.ackWait);
        if delay.None? {
          return Fatal;
        }
        payload := payload.(nextExec := d.later + delay.value);
        var bytes := codec.encode(payload);
        if bytes.None? {
          return Fatal;
        }
        var ok := b.Publish(ExecuteSubject(taskId), bytes.value, d.publishRefused);
        if !ok {
          return Fatal;
        }
      }
    } else {
      b.Nak(d.msg);
    }
    return Continue;
  }

  /** One fetch and the messages it returned (task.go:38-83). */
  method HandleTaskFetch(b: Broker, taskId: string, f: Fetched, parse: Parser, codec: Codec<TaskPayload>)
    returns (c: Control)
    modifies b
    ensures b.consumers == old(b.consumers)
    ensures b.trace == old(b.trace) + TaskFetch(taskId, f, parse, codec).effects
    ensures c == TaskFetch(taskId, f, parse, codec).control
  {
    c := Continue;
    if !f.Batch? {
      return;
    }
    var ds := f.deliveries;
    var step := d => TaskStep(taskId, d, parse, codec);
    var i := 0;
    while i < |ds| && c == Continue
      invariant 0 <= i <= |ds|
      invariant b.consumers == old(b.consumers)
      invariant b.trace == old(b.trace) + Sequence(ds[..i], step).effects
      invariant c == Sequence(ds[..i], step).control
    {
      SequencePrefix(ds, i, step);
      c := HandleTaskMessage(b, taskId, ds[i], parse, codec);
      i := i + 1;
    }
    SequenceDone(ds, i, step);
  }

  /** startTaskConsumer (task.go:15-85) against a finite script of fetches. */
  method StartTaskConsumer(b: Broker, taskId: string, ackWait: int, addRefused: bool, subscribeRefused: bool,
                           fetches: seq<Fetched>, parse: Parser, codec: Codec<TaskPayload>)
    returns (c: Control)
    modifies b
    ensures var cfg := TaskConsumerConfig(taskId, ackWait);
      b.consumers == if CreateAccepted(old(b.consumers), ConsumerName(taskId), cfg, addRefused)
                     then old(b.consumers)[ConsumerName(taskId) := cfg] else old(b.consumers)
    ensures var s := TaskConsumer(old(b.consumers), taskId, ackWait, addRefused, subscribeRefused, fetches, parse, codec);
      b.trace == old(b.trace) + s.effects && c == s.control
  {
    var subject := ExecuteSubject(taskId);
    var name := ConsumerName(taskId);
    var created := b.AddConsumer(name, TaskConsumerConfig(taskId, ackWait), addRefused);
    if !created {
      return Return;
    }
    var subscribed := b.PullSubscribe(subject, name, subscribeRefused);
    if !subscribed {
      return Return;
    }
    c := RunTaskLoop(b, taskId, fetches, parse, codec);
  }

  /** The fetch loop of a bound task consumer (task.go:37-84). */
  method RunTaskLoop(b: Broker, taskId: string, fetches: seq<Fetched>, parse: Parser, codec: Codec<TaskPayload>)
    returns (c: Control)
    modifies b
    ensures b.consumers == old(b.consumers)
    ensures b.trace == old(b.trace) + Sequence(fetches, g => TaskFetch(taskId, g, parse, codec)).effects
    ensures c == Sequence(fetches, g => TaskFetch(taskId, g, parse, codec)).control
  {
    var step := g => TaskFetch(taskId, g, parse, codec);
    c := Continue;
    var i := 0;
    while i < |fetches| && c == Continue
      invariant 0 <= i <= |fetches|
      invariant b.consumers == old(b.consumers)
      invariant b.trace == old(b.trace) + Sequence(fetches[..i], step).effects
      invariant c == Sequence(fetches[..i], step).control
    {
      SequencePrefix(fetches, i, step);
      c := HandleTaskFetch(b, taskId, fetches[i], parse, codec);
      i := i + 1;
    }
    SequenceDone(fetches, i, step);
  }
}
