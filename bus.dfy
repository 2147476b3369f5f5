/**
 * The message bus (nanobot/bus/queue.py): two independent FIFO queues and, per destination
 * channel, an ordered list of outbound subscribers.
 *
 * Callbacks are opaque identifiers. What the model observes of a callback is that it was
 * invoked with a message; whether the invocation raised is given by the oracle `fails`.
 * The log `deliveries` records every invocation in the order it happened.
 */
module Bus {
  import opened Wrappers
  import opened Events

  type CallbackId = nat

  /** One invocation of a subscriber callback; `failed` is true when the callback raised. */
  datatype Delivery = Delivery(callback: CallbackId, message: OutboundMessage, failed: bool)

  /** `subscribers.get(channel, [])` */
  function Subscribed(subscribers: map<string, seq<CallbackId>>, channel: string): seq<CallbackId> {
    if channel in subscribers then subscribers[channel] else []
  }

  /** The invocations made for one message: each callback, in order, whether or not an earlier one raised. */
  function Deliver(callbacks: seq<CallbackId>, msg: OutboundMessage,
                   fails: (CallbackId, OutboundMessage) -> bool): seq<Delivery>
  {
    if |callbacks| == 0 then []
    else
      var last := callbacks[|callbacks| - 1];
      Deliver(callbacks[..|callbacks| - 1], msg, fails) + [Delivery(last, msg, fails(last, msg))]
  }

  /** The invocations made for a sequence of messages handled one after the other. */
  function DeliverAll(msgs: seq<OutboundMessage>, subscribers: map<string, seq<CallbackId>>,
                      fails: (CallbackId, OutboundMessage) -> bool): seq<Delivery>
  {
    if |msgs| == 0 then []
    else
      var last := msgs[|msgs| - 1];
      DeliverAll(msgs[..|msgs| - 1], subscribers, fails) + Deliver(Subscribed(subscribers, last.channel), last, fails)
  }

  /** A message is offered to exactly the given callbacks, in registration order; a raising callback stops nothing. */
  lemma {:induction false} DeliverEach(callbacks: seq<CallbackId>, msg: OutboundMessage,
                                       fails: (CallbackId, OutboundMessage) -> bool)
    ensures |Deliver(callbacks, msg, fails)| == |callbacks|
    ensures forall i :: 0 <= i < |callbacks| ==>
      Deliver(callbacks, msg, fails)[i] == Delivery(callbacks[i], msg, fails(callbacks[i], msg))
  {
    if |callbacks| > 0 {
      DeliverEach(callbacks[..|callbacks| - 1], msg, fails);
    }
  }

  /** Handling `a` and then `b` makes the invocations of `a` followed by those of `b`: messages are handled in order. */
  lemma {:induction false} DeliverAllAppend(a: seq<OutboundMessage>, b: seq<OutboundMessage>,
                                            subscribers: map<string, seq<CallbackId>>,
                                            fails: (CallbackId, OutboundMessage) -> bool)
    ensures DeliverAll(a + b, subscribers, fails) == DeliverAll(a, subscribers, fails) + DeliverAll(b, subscribers, fails)
    decreases |b|
  {
    if |b| > 0 {
      assert (a + b)[..|a + b| - 1] == a + b[..|b| - 1];
      DeliverAllAppend(a, b[..|b| - 1], subscribers, fails);
    } else {
      assert a + b == a;
    }
  }

  /**
   * Every invocation made while handling `msgs` is of a callback registered under the channel
   * of the message it received: delivery is routed by channel and nowhere else.
   */
  lemma {:induction false} DeliverAllRouted(msgs: seq<OutboundMessage>, subscribers: map<string, seq<CallbackId>>,
                                            fails: (CallbackId, OutboundMessage) -> bool)
    ensures forall d :: d in DeliverAll(msgs, subscribers, fails) ==>
      d.message in msgs && d.callback in Subscribed(subscribers, d.message.channel)
  {
    if |msgs| > 0 {
      var last := msgs[|msgs| - 1];
      var callbacks := Subscribed(subscribers, last.channel);
      DeliverAllRouted(msgs[..|msgs| - 1], subscribers, fails);
      DeliverEach(callbacks, last, fails);
      forall d | d in Deliver(callbacks, last, fails)
        ensures d.message in msgs && d.callback in Subscribed(subscribers, d.message.channel)
      {
        var i :| 0 <= i < |callbacks| && Deliver(callbacks, last, fails)[i] == d;
      }
    }
  }

  lemma DeliverAllSnoc(msgs: seq<OutboundMessage>, i: nat, subscribers: map<string, seq<CallbackId>>,
                       fails: (CallbackId, OutboundMessage) -> bool)
    requires i < |msgs|
    ensures DeliverAll(msgs[..i + 1], subscribers, fails)
      == DeliverAll(msgs[..i], subscribers, fails) + Deliver(Subscribed(subscribers, msgs[i].channel), msgs[i], fails)
  {
    assert msgs[..i + 1][..i] == msgs[..i];
  }

  /** A message for a channel that nobody subscribed to invokes nothing and raises nothing. */
  lemma UnsubscribedDropsSilently(msg: OutboundMessage, subscribers: map<string, seq<CallbackId>>,
                                  fails: (CallbackId, OutboundMessage) -> bool)
    requires msg.channel !in subscribers
    ensures DeliverAll([msg], subscribers, fails) == []
  {
  }

  function Min(a: int, b: int): int {
    if a <= b then a else b
  }

  /**
   * The number of polls a dispatch or run loop performs when it is given `polls` polls and an
   * external `stop()` arrives once `stopAfter` of them are done (or never).
   */
  function PollsRun(polls: nat, stopAfter: Option<nat>): nat {
    if stopAfter.Some? && stopAfter.value < polls then stopAfter.value else polls
  }

  class MessageBus {
    var inbound: seq<InboundMessage>
    var outbound: seq<OutboundMessage>
    var subscribers: map<string, seq<CallbackId>>
    var running: bool
    var deliveries: seq<Delivery>
    const fails: (CallbackId, OutboundMessage) -> bool

    constructor (fails: (CallbackId, OutboundMessage) -> bool)
      ensures inbound == [] && outbound == [] && subscribers == map[] && !running && deliveries == []
      ensures this.fails == fails
    {
      inbound, outbound, subscribers, running, deliveries := [], [], map[], false, [];
      this.fails := fails;
    }

    /** Enqueues at the back of the inbound queue; nothing else changes. */
    method PublishInbound(msg: InboundMessage)
      modifies this`inbound
      ensures inbound == old(inbound) + [msg]
      ensures outbound == old(outbound)
    {
      inbound := inbound + [msg];
    }

    /**
     * Takes the oldest inbound message. On an empty queue the source waits; the model returns
     * None (the poll timed out) and changes nothing.
     */
    method ConsumeInbound() returns (m: Option<InboundMessage>)
      modifies this`inbound
      ensures old(inbound) == [] ==> m == None && inbound == []
      ensures old(inbound) != [] ==> m == Some(old(inbound)[0]) && inbound == old(inbound)[1..]
      ensures outbound == old(outbound)
    {
      if inbound == [] {
        m := None;
      } else {
        m := Some(inbound[0]);
        inbound := inbound[1..];
      }
    }

    /** Enqueues at the back of the outbound queue; nothing else changes. */
    method PublishOutbound(msg: OutboundMessage)
      modifies this`outbound
      ensures outbound == old(outbound) + [msg]
      ensures inbound == old(inbound)
    {
      outbound := outbound + [msg];
    }

    /** Takes the oldest outbound message, or None (timed out) when the queue is empty. */
    method ConsumeOutbound() returns (m: Option<OutboundMessage>)
      modifies this`outbound
      ensures old(outbound) == [] ==> m == None && outbound == []
      ensures old(outbound) != [] ==> m == Some(old(outbound)[0]) && outbound == old(outbound)[1..]
      ensures inbound == old(inbound)
    {
      if outbound == [] {
        m := None;
      } else {
        m := Some(outbound[0]);
        outbound := outbound[1..];
      }
    }

    /** Appends `callback` to the list of `channel`, creating the list if needed; other channels keep theirs. */
    method SubscribeOutbound(channel: string, callback: CallbackId)
      modifies this`subscribers
      ensures subscribers == old(subscribers)[channel := Subscribed(old(subscribers), channel) + [callback]]
      ensures forall c :: c != channel ==> Subscribed(subscribers, c) == Subscribed(old(subscribers), c)
    {
      if channel !in subscribers {
        subscribers := subscribers[channel := []];
      }
      subscribers := subscribers[channel := subscribers[channel] + [callback]];
    }

    /** The body of one dispatch poll that received `msg`: every subscriber of its channel, in order. */
    method DispatchOne(msg: OutboundMessage)
      modifies this`deliveries
      ensures deliveries == old(deliveries) + Deliver(Subscribed(subscribers, msg.channel), msg, fails)
    {
      var callbacks := Subscribed(subscribers, msg.channel);
      var i := 0;
      while i < |callbacks|
        invariant 0 <= i <= |callbacks|
        invariant deliveries == old(deliveries) + Deliver(callbacks[..i], msg, fails)
      {
        var failed := fails(callbacks[i], msg);
        deliveries := deliveries + [Delivery(callbacks[i], msg, failed)];
        assert callbacks[..i + 1][..i] == callbacks[..i];
        i := i + 1;
      }
      assert callbacks[..i] == callbacks;
    }

    /**
     * The dispatch loop. It sets `running`, then polls while `running` holds: each poll handles
     * the oldest outbound message, or times out on an empty queue. `polls` bounds the number of
     * polls; `stopAfter` injects an external `stop()` once that many polls are done. Messages
     * are handled in publication order, and messages left in the queue at a stop stay there.
     */
    method DispatchOutbound(polls: nat, stopAfter: Option<nat>)
      modifies this`outbound, this`deliveries, this`running
      ensures var k := Min(PollsRun(polls, stopAfter), |old(outbound)|);
        && outbound == old(outbound)[k..]
        && deliveries == old(deliveries) + DeliverAll(old(outbound)[..k], subscribers, fails)
      ensures running <==> !(stopAfter.Some? && stopAfter.value < polls)
    {
      running := true;
      var i := 0;
      ghost var queued := outbound;
      ghost var taken := 0;
      while running && i < polls
        invariant 0 <= i <= polls
        invariant running ==> stopAfter.None? || stopAfter.value >= i
        invariant !running ==> stopAfter == Some(i) && i < polls
        invariant taken == Min(i, |queued|)
        invariant Dispatched(queued, taken, old(deliveries))
      {
        if stopAfter == Some(i) {
          Stop();
        } else {
          var handled := Poll(queued, taken, old(deliveries));
          if handled {
            taken := taken + 1;
          }
          i := i + 1;
        }
      }
    }

    /**
     * The dispatch loop's progress: the first `taken` messages of `queued` have left the
     * outbound queue and been offered, in order, after the deliveries in `base`.
     */
    ghost predicate Dispatched(queued: seq<OutboundMessage>, taken: nat, base: seq<Delivery>)
      reads this
    {
      && taken <= |queued|
      && outbound == queued[taken..]
      && deliveries == base + DeliverAll(queued[..taken], subscribers, fails)
    }

    /** One poll of the dispatch loop, stated as progress through the queue it started from. */
    method Poll(ghost queued: seq<OutboundMessage>, ghost taken: nat, ghost base: seq<Delivery>)
      returns (handled: bool)
      requires Dispatched(queued, taken, base)
      modifies this`outbound, this`deliveries
      ensures handled <==> taken < |queued|
      ensures Dispatched(queued, if handled then taken + 1 else taken, base)
    {
      handled := DispatchNext();
      if handled {
        DeliverAllSnoc(queued, taken, subscribers, fails);
        assert queued[taken..][1..] == queued[taken + 1..];
      }
    }

    /**
     * One poll of the dispatch loop: the oldest outbound message, if any, is taken and offered
     * to the subscribers of its channel; an empty queue is a timeout.
     */
    method DispatchNext() returns (handled: bool)
      modifies this`outbound, this`deliveries
      ensures handled <==> old(outbound) != []
      ensures !handled ==> outbound == old(outbound) && deliveries == old(deliveries)
      ensures handled ==>
        && outbound == old(outbound)[1..]
        && deliveries == old(deliveries) + Deliver(Subscribed(subscribers, old(outbound)[0].channel), old(outbound)[0], fails)
    {
      var m := ConsumeOutbound();
      handled := m.Some?;
      if handled {
        DispatchOne(m.value);
      }
    }

    /** Clears `running`, so the dispatch loop leaves at its next check; the queues are not drained. */
    method Stop()
      modifies this`running
      ensures !running
    {
      running := false;
    }

    /** Number of inbound messages waiting. */
    function InboundSize(): (n: nat)
      reads this
      ensures n == |inbound|
    {
      |inbound|
    }

    /** Number of outbound messages waiting. */
    function OutboundSize(): (n: nat)
      reads this
      ensures n == |outbound|
    {
      |outbound|
    }
  }
}
