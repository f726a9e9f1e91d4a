/**
 * One request of `send()` on the client: its chain of deliveries, and what its
 * callback tells the caller.
 */
module PendingRequest {
  import opened Values
  import opened ReplyCodec
  import opened ReplyDemux

  /** What calls the request's callback: a delivery that ended, or a failure of its listener, send or timer. */
  datatype Call = Delivery(message: Message, outcome: Option<Js>) | Failure(err: Js)

  function Tells(call: Call): seq<Event> {
    match call
    case Delivery(message, outcome) => Told(message, outcome)
    case Failure(err) => NestObserver(Packet(Some(err), None, false))
  }

  /** What the caller hears of the calls: nothing after the end. */
  function Hears(calls: seq<Call>): seq<Event> {
    if calls == [] then []
    else
      var before := Hears(calls[..|calls| - 1]);
      if Terminated(before) then before else before + Tells(calls[|calls| - 1])
  }

  /** The deliveries among the calls, in order. */
  function Deliveries(calls: seq<Call>): seq<Call> {
    if calls == [] then []
    else Deliveries(calls[..|calls| - 1]) + if calls[|calls| - 1].Delivery? then [calls[|calls| - 1]] else []
  }

  /** The deliveries of the first messages. */
  function Delivered(messages: seq<Message>, outcomes: seq<Option<Js>>): (r: seq<Call>)
    requires |outcomes| <= |messages|
    ensures |r| == |outcomes|
  {
    seq(|outcomes|, i requires 0 <= i < |outcomes| => Delivery(messages[i], outcomes[i]))
  }

  /** The chain holds the replies whose deliveries are not over, in order. */
  predicate Queued(messages: seq<Message>, n: nat, current: Option<Message>, delivering: seq<Message>) {
    && n <= |messages|
    && messages[n..] == (match current case Some(m) => [m] case None => []) + delivering
  }

  class PendingRequest {
    /** The promise chain `delivering`: the replies not deserialized yet. */
    var delivering: seq<Message>
    /** The reply `deliverReply()` is deserializing. */
    var current: Option<Message>
    /** What the observer was told. */
    var told: seq<Event>
    /** The replies handed to the request, how their deliveries ended, and every call of the callback. */
    ghost var received: seq<Message>
    ghost var outcomes: seq<Option<Js>>
    ghost var calls: seq<Call>

    ghost predicate Valid()
      reads this
    {
      && Queued(received, |outcomes|, current, delivering)
      && |outcomes| <= |received| && Deliveries(calls) == Delivered(received, outcomes)
      && told == Hears(calls)
    }

    constructor ()
      ensures Valid() && received == [] && outcomes == [] && calls == []
    {
      delivering, current, told := [], None, [];
      received, outcomes, calls := [], [], [];
    }

    /** The callback: Nest's observer, which ignores what follows the end. */
    method Callback(packet: Packet)
      modifies this`told
      ensures told == if Terminated(old(told)) then old(told) else old(told) + NestObserver(packet)
    {
      if told == [] || told[|told| - 1].Next? {
        told := told + NestObserver(packet);
      }
    }

    /** The waiter's `reply()` */
    method Reply(message: Message)
      requires Valid()
      modifies this`delivering, this`received
      ensures Valid() && received == old(received) + [message]
    {
      QueueGrows(received, |outcomes|, current, delivering, message);
      DeliveredStays(received, outcomes, message);
      hide Hears;
      hide Deliveries;
      hide Delivered;
      hide Queued;
      delivering := delivering + [message];
      received := received + [message];
    }

    /** The next `deliverReply()` of the chain starts. */
    method StartDelivery()
      requires Valid() && current.None? && delivering != []
      modifies this`delivering, this`current
      ensures Valid() && current == Some(old(delivering)[0]) && delivering == old(delivering)[1..]
    {
      hide Hears;
      hide Deliveries;
      hide Delivered;
      current := Some(delivering[0]);
      delivering := delivering[1..];
    }

    /** `deliverReply()` ended, after its callbacks or with the deserializer's error. */
    method DeliveryEnds(outcome: Option<Js>)
      requires Valid() && current.Some?
      modifies this
      ensures Valid() && received == old(received) && outcomes == old(outcomes) + [outcome]
      ensures calls == old(calls) + [Delivery(old(received)[|old(outcomes)|], outcome)] && current == None
    {
      var message := current.value;
      hide Hears;
      hide Deliveries;
      hide Delivered;
      hide Told;
      hide Terminated;
      hide Queued;
      NextInLine(received, |outcomes|, current, delivering);
      DeliveryIsHeard(received, outcomes, calls, outcome);
      Tell(message, outcome);
      current := None;
      outcomes := outcomes + [outcome];
      calls := calls + [Delivery(message, outcome)];
    }

    /** What `deliverReply()`, or the `catch` after it, calls back. */
    method Tell(message: Message, outcome: Option<Js>)
      modifies this`told
      ensures told == if Terminated(old(told)) then old(told) else old(told) + Told(message, outcome)
    {
      OneOrTwoCallbacks(message);
      hide DeliverReply;
      hide ReadReply;
      match outcome {
        case None => Deliver(DeliverReply(ReadReply(message)));
        case Some(err) => Callback(Packet(Some(err), None, false));
      }
    }

    /** The callbacks of one reply: one, or two for an undefined last value. */
    method Deliver(packets: seq<Packet>)
      requires 1 <= |packets| <= 2 && (|packets| == 2 ==> NestObserver(packets[0]) == [Event.Next(Undefined)])
      modifies this`told
      ensures told == if Terminated(old(told)) then old(told) else old(told) + NestObserverAll(packets)
    {
      assert packets[1..] == if |packets| == 2 then [packets[1]] else [];
      assert NestObserverAll([]) == [];
      Callback(packets[0]);
      if |packets| == 2 {
        assert NestObserverAll([packets[1]]) == NestObserver(packets[1]);
        Callback(packets[1]);
      }
    }

    /** The listener, the send or the reply timer fails the request. */
    method Fail(err: Js)
      requires Valid()
      modifies this`told, this`calls
      ensures Valid() && calls == old(calls) + [Failure(err)]
    {
      OneMoreCall(calls, Failure(err));
      hide Hears;
      hide Deliveries;
      Callback(Packet(Some(err), None, false));
      calls := calls + [Failure(err)];
    }
  }

  lemma {:induction false} OneMoreCall(calls: seq<Call>, call: Call)
    ensures
      var before := Hears(calls);
      Hears(calls + [call]) == if Terminated(before) then before else before + Tells(call)
    ensures Deliveries(calls + [call]) == Deliveries(calls) + if call.Delivery? then [call] else []
  {
    hide Tells;
    assert (calls + [call])[..|calls|] == calls;
  }

  lemma {:induction false} QueueGrows(
      messages: seq<Message>, n: nat, current: Option<Message>, delivering: seq<Message>, message: Message)
    requires Queued(messages, n, current, delivering)
    ensures Queued(messages + [message], n, current, delivering + [message])
  {
    assert (messages + [message])[n..] == messages[n..] + [message];
  }

  lemma {:induction false} NextInLine(
      messages: seq<Message>, n: nat, current: Option<Message>, delivering: seq<Message>)
    requires Queued(messages, n, current, delivering) && current.Some?
    ensures n < |messages| && messages[n] == current.value && Queued(messages, n + 1, None, delivering)
  {
    assert messages[n..][0] == current.value && messages[n..][1..] == delivering;
    assert messages[n + 1..] == messages[n..][1..];
  }

  lemma {:induction false} DeliveredStays(messages: seq<Message>, outcomes: seq<Option<Js>>, message: Message)
    requires |outcomes| <= |messages|
    ensures Delivered(messages + [message], outcomes) == Delivered(messages, outcomes)
  {
  }

  lemma {:induction false} OneMoreDelivered(messages: seq<Message>, outcomes: seq<Option<Js>>, outcome: Option<Js>)
    requires |outcomes| < |messages|
    ensures Delivered(messages, outcomes + [outcome])
      == Delivered(messages, outcomes) + [Delivery(messages[|outcomes|], outcome)]
  {
  }

  lemma {:induction false} DeliveryIsHeard(
      messages: seq<Message>, outcomes: seq<Option<Js>>, calls: seq<Call>, outcome: Option<Js>)
    requires |outcomes| < |messages| && Deliveries(calls) == Delivered(messages, outcomes)
    ensures
      var before, after := Hears(calls), calls + [Delivery(messages[|outcomes|], outcome)];
      && Deliveries(after) == Delivered(messages, outcomes + [outcome])
      && Hears(after) == if Terminated(before) then before else before + Told(messages[|outcomes|], outcome)
  {
    OneMoreCall(calls, Delivery(messages[|outcomes|], outcome));
    OneMoreDelivered(messages, outcomes, outcome);
    hide Hears;
    hide Deliveries;
    hide Delivered;
    hide Told;
  }

  /** `deliverReply()` calls back once, or twice for a last value that is undefined. */
  lemma {:induction false} OneOrTwoCallbacks(message: Message)
    ensures
      var packets := DeliverReply(ReadReply(message));
      1 <= |packets| <= 2 && (|packets| == 2 ==> NestObserver(packets[0]) == [Event.Next(Undefined)])
  {
  }

  /** A request that nothing failed hears what its replies mean, in order. */
  lemma {:induction false} UnfailedHearsReplies(messages: seq<Message>, outcomes: seq<Option<Js>>)
    requires |outcomes| <= |messages|
    ensures Hears(Delivered(messages, outcomes)) == CallerSees(messages, outcomes)
    decreases |outcomes|
  {
    hide Told;
    if outcomes != [] {
      var last := |outcomes| - 1;
      assert Delivered(messages, outcomes)[..last] == Delivered(messages, outcomes[..last]);
      UnfailedHearsReplies(messages, outcomes[..last]);
    }
  }

  /**
   * A failure ends what the caller hears if and only if its error is truthy; a
   * falsy one is heard as a value that is undefined. Nothing is heard after it ended.
   */
  lemma {:induction false} FailureIsHeard(calls: seq<Call>, err: Js, more: seq<Call>)
    requires !Terminated(Hears(calls))
    ensures
      var heard := Hears(calls + [Failure(err)]);
      && heard == Hears(calls) + [if IsTruthy(err) then Error(err) else Next(Undefined)]
      && (Terminated(heard) <==> IsTruthy(err))
      && (IsTruthy(err) ==> Hears(calls + [Failure(err)] + more) == heard)
  {
    OneMoreCall(calls, Failure(err));
    if IsTruthy(err) { NothingMore(calls + [Failure(err)], more); }
    hide Hears;
  }

  lemma {:induction false} NothingMore(calls: seq<Call>, more: seq<Call>)
    requires Terminated(Hears(calls))
    ensures Hears(calls + more) == Hears(calls)
    decreases |more|
  {
    hide Tells;
    if more == [] {
      assert calls + more == calls;
    } else {
      NothingMore(calls, more[..|more| - 1]);
      assert (calls + more)[..|calls + more| - 1] == calls + more[..|more| - 1];
    }
  }
}
