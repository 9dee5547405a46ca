/** The narrow contract the scheduler uses of a JetStream broker, as abstract state:
    the durable consumers of the `tasks` stream and an ordered trace of what the
    scheduler did to the broker (publishes, acks, naks, subscriptions) together
    with the per-task loops it started. */
module Gateway {

  newtype byte = x: int | 0 <= x < 256
  type Bytes = seq<byte>

  datatype Option<+T> = None | Some(value: T)

  datatype Result<+T, +E> = Success(value: T) | Failure(error: E)

  /** A message handed out by a fetch or a push subscription. */
  datatype Msg = Msg(id: nat, data: Bytes)

  /** Configuration of a durable consumer: the subject it filters on and its ack
      wait in nanoseconds (0 leaves the server default in force). */
  datatype ConsumerConfig = ConsumerConfig(filter: string, ackWait: int)

  /** Observable effects, in the order they happen. */
  datatype Effect =
    | Published(subject: string, data: Bytes)
    | Acked(msg: nat)
    | Naked(msg: nat)
    | PullSubscribed(subject: string, durable: string)
    | Subscribed(subject: string)
      // a per-task loop started with a parsed ack wait
    | Spawned(taskId: string, ackWait: int)
      // a per-task loop started with the ack wait still unparsed
    | SpawnedRaw(taskId: string, rawAckWait: string)

  /** How a handler leaves its loop: carry on, return from the goroutine, or
      end the process (log.Fatal). */
  datatype Control = Continue | Return | Fatal

  /** What handling one input does: its effects, then how control goes on. */
  datatype Step = Step(effects: seq<Effect>, control: Control)

  /** One message as delivered, with what the environment answers while it is
      handled: the clock read for the readiness check, the clock read after the
      execution, whether the broker refuses a publish, and whether a consumer
      lookup fails with an error other than "not found". */
  datatype Delivery = Delivery(msg: Msg, now: int, later: int, publishRefused: bool, lookupFailed: bool)

  /** Outcome of one pull fetch. */
  datatype Fetched = TimedOut | FetchFailed | Batch(deliveries: seq<Delivery>)

  /** JSON marshalling and unmarshalling of a payload type, both partial. */
  datatype Codec<!P> = Codec(encode: P -> Option<Bytes>, decode: Bytes -> Option<P>)

  /** Every payload that can be encoded decodes back to itself. */
  ghost predicate RoundTrips<P(!new)>(c: Codec<P>)
  {
    forall p :: c.encode(p).Some? ==> c.decode(c.encode(p).value) == Some(p)
  }

  /** `first` followed by `rest`, unless `first` left the loop. */
  function Then(first: Step, rest: Step): Step
  {
    if first.control == Continue then Step(first.effects + rest.effects, rest.control) else first
  }

  /** Handles `xs` in order with `f` until one of them leaves the loop. */
  function Sequence<X>(xs: seq<X>, f: X -> Step): Step
    decreases |xs|
  {
    if xs == [] then Step([], Continue) else Then(f(xs[0]), Sequence(xs[1..], f))
  }

  /** Handling one more element after a prefix that stayed in the loop. */
  lemma {:induction false} SequenceAppend<X>(xs: seq<X>, x: X, f: X -> Step)
    requires Sequence(xs, f).control == Continue
    ensures Sequence(xs + [x], f).effects == Sequence(xs, f).effects + f(x).effects
    ensures Sequence(xs + [x], f).control == f(x).control
    decreases |xs|
  {
    if xs == [] {
      assert Sequence([x], f) == Then(f(x), Sequence([], f)) by {
        assert [x][1..] == [];
      }
      assert xs + [x] == [x];
    } else {
      var head, tail := f(xs[0]), Sequence(xs[1..] + [x], f);
      assert Sequence(xs + [x], f) == Then(head, tail) by {
        assert (xs + [x])[0] == xs[0] && (xs + [x])[1..] == xs[1..] + [x];
      }
      assert head.control == Continue;
      SequenceAppend(xs[1..], x, f);
      assert tail.effects == Sequence(xs[1..], f).effects + f(x).effects;
      assert Sequence(xs, f).effects == head.effects + Sequence(xs[1..], f).effects;
    }
  }

  /** Once a prefix has left the loop, later elements are never handled. */
  lemma {:induction false} SequenceStops<X>(xs: seq<X>, ys: seq<X>, f: X -> Step)
    requires Sequence(xs, f).control != Continue
    ensures Sequence(xs + ys, f) == Sequence(xs, f)
    decreases |xs|
  {
    assert xs != [];
    if f(xs[0]).control == Continue {
      assert (xs + ys)[1..] == xs[1..] + ys;
      SequenceStops(xs[1..], ys, f);
    }
  }

  /** The prefix form of `SequenceAppend` that loops over `xs` use: one
      more element of `xs` extends the prefix handled so far. */
  lemma SequencePrefix<X>(xs: seq<X>, i: nat, f: X -> Step)
    requires i < |xs|
    requires Sequence(xs[..i], f).control == Continue
    ensures Sequence(xs[..i + 1], f).effects == Sequence(xs[..i], f).effects + f(xs[i]).effects
    ensures Sequence(xs[..i + 1], f).control == f(xs[i]).control
  {
    SequenceAppend(xs[..i], xs[i], f);
    assert xs[..i + 1] == xs[..i] + [xs[i]];
  }

  /** A loop that handled `xs[..i]` and then either ran out of input or left
      has done all that handling `xs` does. */
  lemma SequenceDone<X>(xs: seq<X>, i: nat, f: X -> Step)
    requires i <= |xs|
    requires i == |xs| || Sequence(xs[..i], f).control != Continue
    ensures Sequence(xs, f) == Sequence(xs[..i], f)
  {
    if i < |xs| {
      SequenceStops(xs[..i], xs[i..], f);
      assert xs[..i] + xs[i..] == xs;
    } else {
      assert xs[..i] == xs;
    }
  }

  /** If no element can leave a loop by `c` (returning or ending the
      process), neither can the loop. */
  lemma {:induction false} SequenceAvoids<X>(xs: seq<X>, f: X -> Step, c: Control)
    requires c != Continue
    requires forall x :: x in xs ==> f(x).control != c
    ensures Sequence(xs, f).control != c
    decreases |xs|
  {
    if xs != [] {
      assert xs[0] in xs;
      SequenceAvoids(xs[1..], f, c);
    }
  }

  /** Every element continuing makes the whole sequence continue. */
  lemma {:induction false} SequenceContinues<X>(xs: seq<X>, f: X -> Step)
    requires forall x :: x in xs ==> f(x).control == Continue
    ensures Sequence(xs, f).control == Continue
    decreases |xs|
  {
    if xs != [] {
      SequenceContinues(xs[1..], f);
    }
  }

  /** Effects that every element keeps within `allowed` the whole loop keeps
      within `allowed`. */
  lemma {:induction false} SequenceEffectsWithin<X>(xs: seq<X>, f: X -> Step, allowed: Effect -> bool)
    requires forall x :: x in xs ==> forall e :: e in f(x).effects ==> allowed(e)
    ensures forall e :: e in Sequence(xs, f).effects ==> allowed(e)
    decreases |xs|
  {
    if xs != [] {
      SequenceEffectsWithin(xs[1..], f, allowed);
    }
  }

  /** ConsumerInfo answers without error: the consumer exists and the lookup
      itself did not fail. Every caller treats any error as "absent". */
  predicate Found(consumers: map<string, ConsumerConfig>, name: string, lookupFailed: bool)
  {
    name in consumers && !lookupFailed
  }

  /** Whether the broker accepts a durable consumer: creation is idempotent for
      an identical configuration and fails for a different one. */
  predicate CreateAccepted(consumers: map<string, ConsumerConfig>, name: string,
                           cfg: ConsumerConfig, refused: bool)
  {
    !refused && (name in consumers ==> consumers[name] == cfg)
  }

  /** Progress of a consumer listing: `listed` holds distinct consumers of
      the stream, and every consumer is either listed or still pending. */
  predicate Listing(listed: seq<string>, pending: set<string>, consumers: map<string, ConsumerConfig>)
  {
    && pending <= consumers.Keys
    && (forall n :: n in listed ==> n in consumers && n !in pending)
    && (forall n :: n in consumers ==> n in pending || n in listed)
    && (forall i, j :: 0 <= i < j < |listed| ==> listed[i] != listed[j])
  }

  /** Listing one more pending consumer keeps the listing consistent. */
  lemma ListingStep(listed: seq<string>, pending: set<string>, consumers: map<string, ConsumerConfig>,
                    name: string)
    requires Listing(listed, pending, consumers) && name in pending
    ensures Listing(listed + [name], pending - {name}, consumers)
  {
  }

  /** A listing with nothing pending has listed every consumer. */
  lemma ListingDone(listed: seq<string>, consumers: map<string, ConsumerConfig>)
    requires Listing(listed, {}, consumers)
    ensures forall n :: n in listed <==> n in consumers
  {
  }

  class Broker {
    var consumers: map<string, ConsumerConfig>
    var trace: seq<Effect>

    constructor (existing: map<string, ConsumerConfig>)
      ensures consumers == existing && trace == []
    {
      consumers := existing;
      trace := [];
    }

    /** ConsumerInfo: the lookup succeeds exactly for an existing consumer,
        unless it fails for another reason. */
    predicate Lookup(name: string, failed: bool)
      reads this
    {
      Found(consumers, name, failed)
    }

    method AddConsumer(name: string, cfg: ConsumerConfig, refused: bool) returns (ok: bool)
      modifies this
      ensures ok == CreateAccepted(old(consumers), name, cfg, refused)
      ensures consumers == if ok then old(consumers)[name := cfg] else old(consumers)
      ensures trace == old(trace)
    {
      ok := CreateAccepted(consumers, name, cfg, refused);
      if ok {
        consumers := consumers[name := cfg];
      }
    }

    method Publish(subject: string, data: Bytes, refused: bool) returns (ok: bool)
      modifies this
      ensures ok == !refused
      ensures consumers == old(consumers)
      ensures trace == old(trace) + if ok then [Published(subject, data)] else []
    {
      ok := !refused;
      if ok {
        trace := trace + [Published(subject, data)];
      }
    }

    method PullSubscribe(subject: string, durable: string, refused: bool) returns (ok: bool)
      modifies this
      ensures ok == !refused
      ensures consumers == old(consumers)
      ensures trace == old(trace) + if ok then [PullSubscribed(subject, durable)] else []
    {
      ok := !refused;
      if ok {
        trace := trace + [PullSubscribed(subject, durable)];
      }
    }

    method Subscribe(subject: string, refused: bool) returns (ok: bool)
      modifies this
      ensures ok == !refused
      ensures consumers == old(consumers)
      ensures trace == old(trace) + if ok then [Subscribed(subject)] else []
    {
      ok := !refused;
      if ok {
        trace := trace + [Subscribed(subject)];
      }
    }

    method Ack(m: Msg)
      modifies this
      ensures consumers == old(consumers) && trace == old(trace) + [Acked(m.id)]
    {
      trace := trace + [Acked(m.id)];
    }

    method Nak(m: Msg)
      modifies this
      ensures consumers == old(consumers) && trace == old(trace) + [Naked(m.id)]
    {
      trace := trace + [Naked(m.id)];
    }

    /** The stream's consumer listing (`js.Consumers("tasks")`), in the
        broker's order: every consumer exactly once. */
    method ListConsumers() returns (names: seq<string>)
      ensures forall n :: n in names <==> n in consumers
      ensures forall i, j :: 0 <= i < j < |names| ==> names[i] != names[j]
    {
      names := [];
      var pending := consumers.Keys;
      while pending != {}
        invariant Listing(names, pending, consumers)
        decreases pending
      {
        var name :| name in pending;
        ListingStep(names, pending, consumers, name);
        names := names + [name];
        pending := pending - {name};
      }
      ListingDone(names, consumers);
    }

    /** Records that a per-task loop was started (`go startTaskConsumer(...)`). */
    method Spawn(loop: Effect)
      requires loop.Spawned? || loop.SpawnedRaw?
      modifies this
      ensures consumers == old(consumers) && trace == old(trace) + [loop]
    {
      trace := trace + [loop];
    }
  }
}
