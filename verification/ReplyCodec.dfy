/**
 * How a handler's response becomes reply messages (server) and how the client
 * turns those messages back into the events of its Observable.
 */
module ReplyCodec {
  import opened Values

  /** What an Observable tells its observer. */
  datatype Event = Next(value: Js) | Error(error: Js) | Complete

  /** A Nest `WritePacket`; `None` is an absent property. */
  datatype Packet = Packet(err: Option<Js>, response: Option<Js>, isDisposed: bool)

  /** The reply-type property of a message; servers before 1.2.0 leave it unset. */
  datatype ReplyType = ErrorType | ResponseType | NoneType | Unset

  datatype Message = Message(correlationId: string, replyType: ReplyType, isDisposed: bool, body: Js)

  // ---------------------------------------------------------------- server

  /** `toReplyError()`: nothing but a client-safe value leaves the server. */
  function ToReplyError(err: Js): Js {
    if err.ErrorInstance? || IsNullish(err) then InternalServerError else err
  }

  /** The packet `sendReply()` schedules for an event of the response. */
  function PacketOf(e: Event): Packet {
    match e
    case Next(v) => Packet(None, Some(v), false)
    case Error(err) => Packet(Some(ToReplyError(err)), None, true)
    case Complete => Packet(None, None, true)
  }

  /** Whether `packet` is an end that may travel on `last`, the last of its tick. */
  predicate FoldsInto(packet: Packet, last: Packet) {
    packet.isDisposed && packet.err.None? && !IsTruthy(Read(last.err)) && !last.isDisposed
  }

  /** `schedule()` for a 1.2.0 client; the empty sequence is "no batch yet". */
  function Schedule(batch: seq<Packet>, packet: Packet): seq<Packet> {
    if batch != [] && FoldsInto(packet, batch[|batch| - 1]) then
      batch[|batch| - 1 := batch[|batch| - 1].(isDisposed := true)]
    else
      batch + [packet]
  }

  /** The replies of one tick: its events scheduled one after another. */
  function BatchOf(tick: seq<Event>): seq<Packet> {
    if tick == [] then []
    else Schedule(BatchOf(tick[..|tick| - 1]), PacketOf(tick[|tick| - 1]))
  }

  /** All the replies of a response, given how its events fell into ticks. */
  function EncodeTicks(ticks: seq<seq<Event>>): seq<Packet> {
    if ticks == [] then []
    else EncodeTicks(ticks[..|ticks| - 1]) + BatchOf(ticks[|ticks| - 1])
  }

  /** The message `getPublisher()` sends for a packet. */
  function ToMessage(correlationId: string, data: Packet): Message {
    var err := Read(data.err);
    var replyType := if IsTruthy(err) then ErrorType else if data.response.Some? then ResponseType else NoneType;
    Message(correlationId, replyType, data.isDisposed, Coalesce(err, Read(data.response)))
  }

  function Messages(correlationId: string, packets: seq<Packet>): (r: seq<Message>)
    ensures |r| == |packets|
    ensures forall i :: 0 <= i < |r| ==> r[i] == ToMessage(correlationId, packets[i])
  {
    seq(|packets|, i requires 0 <= i < |packets| => ToMessage(correlationId, packets[i]))
  }

  /** The error reply that stands for a reply that could not be sent. */
  const GENERIC_ERROR := Packet(Some(InternalServerError), None, true)

  // ---------------------------------------------------------------- client

  /** `readReply()`. */
  function ReadReply(message: Message): Packet {
    match message.replyType
    case ErrorType => Packet(Some(Coalesce(message.body, InternalServerError)), None, true)
    case NoneType => Packet(None, None, true)
    case ResponseType => Packet(None, Some(message.body), message.isDisposed)
    case Unset => Packet(None, Some(message.body), true)
  }

  /** The calls `deliverReply()` makes to the request's callback. */
  function DeliverReply(packet: Packet): seq<Packet> {
    if IsTruthy(Read(packet.err)) then
      [Packet(packet.err, None, false)]
    else if packet.isDisposed && packet.response == Some(Undefined) then
      [Packet(None, Some(Undefined), false), Packet(None, None, true)]
    else
      [packet]
  }

  /** What Nest's observer does with one packet. */
  function NestObserver(packet: Packet): seq<Event> {
    var response := Read(packet.response);
    if IsTruthy(Read(packet.err)) then [Error(packet.err.value)]
    else if !response.Undefined? && packet.isDisposed then [Next(response), Complete]
    else if packet.isDisposed then [Complete]
    else [Next(response)]
  }

  function NestObserverAll(packets: seq<Packet>): seq<Event> {
    if packets == [] then []
    else NestObserver(packets[0]) + NestObserverAll(packets[1..])
  }

  /** What the observer of an open request is told about one reply message. */
  function Decode(message: Message): seq<Event> {
    NestObserverAll(DeliverReply(ReadReply(message)))
  }

  /** Whether an Observable that emitted `events` is over. */
  predicate Terminated(events: seq<Event>) {
    events != [] && !events[|events| - 1].Next?
  }

  /** What the caller of `send()` sees of the messages: nothing after the end. */
  function Observe(messages: seq<Message>): seq<Event> {
    if messages == [] then []
    else
      var before := Observe(messages[..|messages| - 1]);
      if Terminated(before) then before else before + Decode(messages[|messages| - 1])
  }

  // ------------------------------------------------------------ properties

  /** The Observable contract: nothing follows an error or a completion. */
  predicate WellFormed(events: seq<Event>) {
    forall i :: 0 <= i < |events| - 1 ==> events[i].Next?
  }

  function Flatten(ticks: seq<seq<Event>>): seq<Event> {
    if ticks == [] then []
    else Flatten(ticks[..|ticks| - 1]) + ticks[|ticks| - 1]
  }

  /**
   * The event the client is meant to see for an event of the handler. A falsy
   * error that is not null or undefined (`""`, `0`, `false`) is the one case
   * where that is not the handler's own event: it is typed `"none"`.
   */
  function Seen(e: Event): Event {
    match e
    case Error(err) => if IsTruthy(ToReplyError(err)) then Error(ToReplyError(err)) else Complete
    case _ => e
  }

  function SeenAll(events: seq<Event>): (r: seq<Event>)
    ensures |r| == |events|
    ensures forall i :: 0 <= i < |r| ==> r[i] == Seen(events[i])
  {
    seq(|events|, i requires 0 <= i < |events| => Seen(events[i]))
  }

  /** Only the last packet may end the response. */
  predicate EndsLast(packets: seq<Packet>) {
    forall i :: 0 <= i < |packets| - 1 ==> !packets[i].isDisposed
  }

  /** A packet that `schedule()` can produce. */
  predicate Producible(p: Packet) {
    || (p.err.None? && (p.response.Some? || p.isDisposed))
    || (p.err.Some? && p.response.None? && p.isDisposed && !IsNullish(p.err.value))
  }

  /** The events one packet stands for, whatever message carries it. */
  function EventsOf(p: Packet): seq<Event> {
    if p.err.Some? then [if IsTruthy(p.err.value) then Error(p.err.value) else Complete]
    else (if p.response.Some? then [Next(p.response.value)] else []) + (if p.isDisposed then [Complete] else [])
  }

  function EventsOfAll(packets: seq<Packet>): seq<Event> {
    if packets == [] then []
    else EventsOfAll(packets[..|packets| - 1]) + EventsOf(packets[|packets| - 1])
  }

  /** One message carries exactly the events of its packet, undefined values included. */
  lemma {:induction false} DecodeToMessage(id: string, p: Packet)
    requires Producible(p)
    ensures Decode(ToMessage(id, p)) == EventsOf(p)
    ensures Terminated(EventsOf(p)) <==> p.isDisposed
  {
    var calls := DeliverReply(ReadReply(ToMessage(id, p)));
    assert NestObserverAll([]) == [];
    if |calls| == 2 {
      assert calls[1..] == [calls[1]] && [calls[1]][1..] == [];
      assert NestObserverAll([calls[1]]) == NestObserver(calls[1]);
    } else {
      assert calls[1..] == [];
    }
  }

  lemma {:induction false} EventsOfAllAppend(a: seq<Packet>, b: seq<Packet>)
    ensures EventsOfAll(a + b) == EventsOfAll(a) + EventsOfAll(b)
  {
    hide EventsOf;
    if b == [] {
      assert a + b == a;
    } else {
      var init := b[..|b| - 1];
      assert (a + b)[..|a + b| - 1] == a + init;
      EventsOfAllAppend(a, init);
    }
  }

  lemma {:induction false} EndsLastTerminates(packets: seq<Packet>)
    requires EndsLast(packets)
    requires forall i :: 0 <= i < |packets| ==> Producible(packets[i])
    ensures Terminated(EventsOfAll(packets)) <==> packets != [] && packets[|packets| - 1].isDisposed
  {
    if packets != [] {
      var init, last := packets[..|packets| - 1], packets[|packets| - 1];
      EndsLastTerminates(init);
      assert EventsOf(last) != [];
    }
  }

  /** The client that gets the packets in order sees their events, one after another. */
  lemma {:induction false} ObserveMessages(id: string, packets: seq<Packet>)
    requires EndsLast(packets)
    requires forall i :: 0 <= i < |packets| ==> Producible(packets[i])
    ensures Observe(Messages(id, packets)) == EventsOfAll(packets)
  {
    if packets != [] {
      var last := |packets| - 1;
      ObserveMessages(id, packets[..last]);
      EndsLastTerminates(packets[..last]);
      DecodeToMessage(id, packets[last]);
      MessagesButLast(id, packets);
      hide Decode;
      hide EventsOf;
      hide ToMessage;
      hide Messages;
    }
  }

  lemma {:induction false} MessagesButLast(id: string, packets: seq<Packet>)
    requires packets != []
    ensures
      var last, messages := |packets| - 1, Messages(id, packets);
      messages[..last] == Messages(id, packets[..last]) && messages[last] == ToMessage(id, packets[last])
  {
    hide ToMessage;
  }

  function PacketsOf(events: seq<Event>): (r: seq<Packet>)
    ensures |r| == |events|
    ensures forall i :: 0 <= i < |r| ==> r[i] == PacketOf(events[i])
  {
    seq(|events|, i requires 0 <= i < |events| => PacketOf(events[i]))
  }

  /** Until the end comes, a tick's batch is one packet per value. */
  lemma {:induction false} BatchOfValues(tick: seq<Event>)
    requires forall i :: 0 <= i < |tick| ==> tick[i].Next?
    ensures BatchOf(tick) == PacketsOf(tick)
  {
    if tick != [] {
      var init, last := tick[..|tick| - 1], tick[|tick| - 1];
      BatchOfValues(init);
      assert BatchOf(tick) == BatchOf(init) + [PacketOf(last)];
    }
  }

  lemma {:induction false} ValuesEvents(values: seq<Event>)
    requires forall i :: 0 <= i < |values| ==> values[i].Next?
    ensures EventsOfAll(PacketsOf(values)) == SeenAll(values)
  {
    if values != [] {
      var init, last := values[..|values| - 1], values[|values| - 1];
      ValuesEvents(init);
      assert PacketsOf(values)[..|values| - 1] == PacketsOf(init);
      assert SeenAll(values) == SeenAll(init) + [last];
    }
  }

  lemma {:induction false} EventsOfOne(p: Packet)
    ensures EventsOfAll([p]) == EventsOf(p)
  {
    assert [p][..0] == [];
  }

  /** What a tick's batch is made of: one packet per value, and one more unless a completion folds. */
  ghost predicate BatchShape(tick: seq<Event>, batch: seq<Packet>) {
    && EndsLast(batch)
    && (forall i :: 0 <= i < |batch| ==> Producible(batch[i]))
    && ((batch == []) <==> (tick == []))
    && (tick != [] ==> (batch[|batch| - 1].isDisposed <==> Terminated(tick)))
    && |batch| == (if |tick| >= 2 && tick[|tick| - 1].Complete? then |tick| - 1 else |tick|)
  }

  /** Scheduling the events of a tick keeps every event, in order, the end last. */
  lemma {:induction false} BatchOfEvents(tick: seq<Event>)
    requires WellFormed(tick)
    ensures EventsOfAll(BatchOf(tick)) == SeenAll(tick)
    ensures BatchShape(tick, BatchOf(tick))
  {
    BatchOfSplit(tick);
    hide BatchOf;
    hide EventsOfAll;
    hide BatchShape;
    if !Terminated(tick) {
      BatchOfValues(tick);
      ValuesEvents(tick);
      ValuesShape(tick);
    } else {
      var init, last := tick[..|tick| - 1], tick[|tick| - 1];
      BatchOfValues(init);
      ValuesEvents(init);
      assert tick == init + [last];
      ScheduleEnd(init, last, PacketsOf(init));
    }
  }

  lemma {:induction false} BatchOfSplit(tick: seq<Event>)
    ensures tick == [] ==> BatchOf(tick) == []
    ensures tick != [] ==>
      BatchOf(tick) == Schedule(BatchOf(tick[..|tick| - 1]), PacketOf(tick[|tick| - 1]))
  {
  }

  lemma {:induction false} ValuesShape(values: seq<Event>)
    requires forall i :: 0 <= i < |values| ==> values[i].Next?
    ensures BatchShape(values, PacketsOf(values))
  {
  }

  /** The end of a response, scheduled after the values of its tick. */
  lemma {:induction false} ScheduleEnd(values: seq<Event>, end: Event, batch: seq<Packet>)
    requires forall i :: 0 <= i < |values| ==> values[i].Next?
    requires !end.Next?
    requires batch == PacketsOf(values) && EventsOfAll(batch) == SeenAll(values)
    ensures EventsOfAll(Schedule(batch, PacketOf(end))) == SeenAll(values + [end])
    ensures BatchShape(values + [end], Schedule(batch, PacketOf(end)))
  {
    ScheduledEnd(values, end, batch);
    ScheduledEndShape(values, end, batch);
  }

  /** An end that folds onto the last value adds a completion to what the batch says. */
  lemma {:induction false} FoldedEvents(batch: seq<Packet>, end: Packet)
    requires batch != [] && batch[|batch| - 1].err.None? && FoldsInto(end, batch[|batch| - 1])
    ensures EventsOfAll(Schedule(batch, end)) == EventsOfAll(batch) + [Complete]
  {
    hide EventsOfAll;
    var init, p := batch[..|batch| - 1], batch[|batch| - 1];
    assert batch == init + [p];
    assert Schedule(batch, end) == init + [p.(isDisposed := true)];
    EventsOfAllAppend(init, [p]);
    EventsOfAllAppend(init, [p.(isDisposed := true)]);
    EventsOfOne(p);
    EventsOfOne(p.(isDisposed := true));
  }

  lemma {:induction false} ScheduledEnd(values: seq<Event>, end: Event, batch: seq<Packet>)
    requires forall i :: 0 <= i < |values| ==> values[i].Next?
    requires !end.Next?
    requires batch == PacketsOf(values) && EventsOfAll(batch) == SeenAll(values)
    ensures EventsOfAll(Schedule(batch, PacketOf(end))) == SeenAll(values + [end])
  {
    var p' := PacketOf(end);
    assert SeenAll(values + [end]) == SeenAll(values) + [Seen(end)];
    if end.Complete? && values != [] {
      FoldedEvents(batch, p');
    } else {
      assert Schedule(batch, p') == batch + [p'];
      EventsOfAllAppend(batch, [p']);
      EventsOfOne(p');
    }
  }

  lemma {:induction false} ScheduledEndShape(values: seq<Event>, end: Event, batch: seq<Packet>)
    requires forall i :: 0 <= i < |values| ==> values[i].Next?
    requires !end.Next?
    requires batch == PacketsOf(values)
    ensures BatchShape(values + [end], Schedule(batch, PacketOf(end)))
  {
  }

  // ------------------------------------------------------------ all ticks

  /** What is true of the replies of a whole response, however it fell into ticks. */
  ghost predicate Encodes(packets: seq<Packet>, events: seq<Event>) {
    && EndsLast(packets)
    && (forall i :: 0 <= i < |packets| ==> Producible(packets[i]))
    && (packets != [] && packets[|packets| - 1].isDisposed <==> Terminated(events))
    && EventsOfAll(packets) == SeenAll(events)
  }

  lemma {:induction false} EncodesAppend(packets: seq<Packet>, events: seq<Event>, batch: seq<Packet>, tick: seq<Event>)
    requires WellFormed(events + tick)
    requires Encodes(packets, events)
    requires BatchShape(tick, batch) && EventsOfAll(batch) == SeenAll(tick)
    ensures Encodes(packets + batch, events + tick)
  {
    EventsOfAllAppend(packets, batch);
    hide EventsOfAll;
    assert SeenAll(events + tick) == SeenAll(events) + SeenAll(tick);
    if tick != [] {
      assert (events + tick)[|events| + |tick| - 1] == tick[|tick| - 1];
      if events != [] {
        assert (events + tick)[|events| - 1].Next?;
      }
    } else {
      assert packets + batch == packets && events + tick == events;
    }
  }

  /** Every response is encoded with all its events, in order, whatever its ticks. */
  lemma {:induction false} EncodeTicksEncodes(ticks: seq<seq<Event>>)
    requires WellFormed(Flatten(ticks))
    ensures Encodes(EncodeTicks(ticks), Flatten(ticks))
  {
    if ticks != [] {
      var init, last := ticks[..|ticks| - 1], ticks[|ticks| - 1];
      WellFormedParts(Flatten(init), last);
      EncodeTicksEncodes(init);
      BatchOfEvents(last);
      EncodesAppend(EncodeTicks(init), Flatten(init), BatchOf(last), last);
    }
  }

  lemma {:induction false} WellFormedParts(a: seq<Event>, b: seq<Event>)
    requires WellFormed(a + b)
    ensures WellFormed(a) && WellFormed(b)
    ensures Terminated(a) ==> b == []
  {
    forall i | 0 <= i < |a| - 1 ensures a[i].Next? {
      assert (a + b)[i] == a[i];
    }
    forall i | 0 <= i < |b| - 1 ensures b[i].Next? {
      assert (a + b)[|a| + i] == b[i];
    }
    if a != [] && b != [] {
      assert (a + b)[|a| - 1] == a[|a| - 1];
    }
  }

  /**
   * The client that gets the first `k` replies sees a prefix of the response,
   * and all of it when it gets all of them.
   */
  lemma {:induction false} ObservePrefix(id: string, packets: seq<Packet>, events: seq<Event>, k: nat)
    requires Encodes(packets, events) && k <= |packets|
    ensures Observe(Messages(id, packets[..k])) <= SeenAll(events)
    ensures k == |packets| ==> Observe(Messages(id, packets[..k])) == SeenAll(events)
    ensures Terminated(Observe(Messages(id, packets[..k]))) <==> k > 0 && packets[k - 1].isDisposed
  {
    hide EventsOfAll;
    hide Observe;
    ObserveMessages(id, packets[..k]);
    EndsLastTerminates(packets[..k]);
    EventsOfAllAppend(packets[..k], packets[k..]);
    assert packets == packets[..k] + packets[k..];
    if k == |packets| { assert packets[..k] == packets && packets[k..] == []; }
  }

  /** The events the handler's client should get: its own, with client-safe errors. */
  function Expected(events: seq<Event>): (r: seq<Event>)
    ensures |r| == |events|
  {
    seq(|events|, i requires 0 <= i < |events| =>
      if events[i].Error? then Error(ToReplyError(events[i].error)) else events[i])
  }

  /** Whether the response fails with a falsy value that is not null or undefined. */
  predicate EndsInFalsyError(events: seq<Event>) {
    Terminated(events) && events[|events| - 1].Error? && events[|events| - 1].error.Falsy?
  }

  /**
   * Stream round trip: for every response and every split of it into ticks,
   * the client sees the handler's events, unless it fails with a falsy value.
   */
  lemma {:induction false} RoundTrip(id: string, ticks: seq<seq<Event>>)
    requires WellFormed(Flatten(ticks))
    ensures Observe(Messages(id, EncodeTicks(ticks))) == SeenAll(Flatten(ticks))
    ensures Observe(Messages(id, EncodeTicks(ticks))) == Expected(Flatten(ticks))
      <==> !EndsInFalsyError(Flatten(ticks))
  {
    hide Observe;
    hide EncodeTicks;
    hide Flatten;
    hide Encodes;
    EncodeTicksEncodes(ticks);
    var packets, events := EncodeTicks(ticks), Flatten(ticks);
    ObservePrefix(id, packets, events, |packets|);
    assert packets[..|packets|] == packets;
    if EndsInFalsyError(events) {
      assert SeenAll(events)[|events| - 1] != Expected(events)[|events| - 1];
    } else {
      assert SeenAll(events) == Expected(events);
    }
  }

  /** A handler that fails with `""` is seen as one that completed. */
  lemma {:induction false} FalsyErrorSeenAsCompletion(id: string)
    ensures Observe(Messages(id, EncodeTicks([[Error(Falsy(0))]]))) == [Complete]
    ensures Expected([Error(Falsy(0))]) == [Error(Falsy(0))]
  {
    var ticks := [[Error(Falsy(0))]];
    assert ticks[..0] == [];
    assert Flatten(ticks) == [Error(Falsy(0))];
    RoundTrip(id, ticks);
  }

  // -------------------------------------------------------- message count

  function CountValues(events: seq<Event>): nat {
    if events == [] then 0
    else CountValues(events[..|events| - 1]) + if events[|events| - 1].Next? then 1 else 0
  }

  lemma {:induction false} CountValuesWellFormed(events: seq<Event>)
    requires WellFormed(events)
    ensures CountValues(events) == if Terminated(events) then |events| - 1 else |events|
  {
    if events != [] {
      CountValuesWellFormed(events[..|events| - 1]);
      if |events| > 1 { assert events[|events| - 2].Next?; }
    }
  }

  /** Whether the end came alone in its tick, or is an error: it needs a message of its own. */
  ghost predicate EndNeedsMessage(ticks: seq<seq<Event>>) {
    exists t :: 0 <= t < |ticks| && Terminated(ticks[t]) && (|ticks[t]| == 1 || ticks[t][|ticks[t]| - 1].Error?)
  }

  lemma {:induction false} UnendedTicks(ticks: seq<seq<Event>>)
    requires WellFormed(Flatten(ticks)) && !Terminated(Flatten(ticks))
    ensures forall t :: 0 <= t < |ticks| ==> !Terminated(ticks[t])
  {
    if ticks != [] {
      var init, last := ticks[..|ticks| - 1], ticks[|ticks| - 1];
      WellFormedParts(Flatten(init), last);
      if last == [] {
        assert Flatten(ticks) == Flatten(init);
      } else {
        assert Flatten(ticks)[|Flatten(ticks)| - 1] == last[|last| - 1];
      }
      UnendedTicks(init);
      forall t | 0 <= t < |ticks| ensures !Terminated(ticks[t]) {
        if t < |init| { assert init[t] == ticks[t]; }
      }
    }
  }

  lemma {:induction false} TicksSplit(ticks: seq<seq<Event>>)
    requires ticks != []
    ensures EncodeTicks(ticks) == EncodeTicks(ticks[..|ticks| - 1]) + BatchOf(ticks[|ticks| - 1])
    ensures Flatten(ticks) == Flatten(ticks[..|ticks| - 1]) + ticks[|ticks| - 1]
  {
  }

  lemma {:induction false} EndNeedsMessageLast(ticks: seq<seq<Event>>)
    requires ticks != [] && WellFormed(Flatten(ticks))
    ensures ticks[|ticks| - 1] == [] ==> (EndNeedsMessage(ticks) <==> EndNeedsMessage(ticks[..|ticks| - 1]))
    ensures ticks[|ticks| - 1] != [] ==> !EndNeedsMessage(ticks[..|ticks| - 1])
    ensures
      var last := ticks[|ticks| - 1];
      last != [] ==> (EndNeedsMessage(ticks) <==> Terminated(last) && (|last| == 1 || last[|last| - 1].Error?))
  {
    var init, last := ticks[..|ticks| - 1], ticks[|ticks| - 1];
    TicksSplit(ticks);
    hide Flatten;
    WellFormedParts(Flatten(init), last);
    forall t | 0 <= t < |init| ensures ticks[t] == init[t] {}
    if last == [] {
      if EndNeedsMessage(init) {
        var t :| 0 <= t < |init| && Terminated(init[t]) && (|init[t]| == 1 || init[t][|init[t]| - 1].Error?);
        assert ticks[t] == init[t];
      }
    } else {
      UnendedTicks(init);
    }
  }

  /** One message per value, and one more only when the end could not travel on a value. */
  lemma {:induction false} MessageCount(ticks: seq<seq<Event>>)
    requires WellFormed(Flatten(ticks))
    ensures |EncodeTicks(ticks)|
      == CountValues(Flatten(ticks)) + if EndNeedsMessage(ticks) then 1 else 0
  {
    if ticks != [] {
      var init, last := ticks[..|ticks| - 1], ticks[|ticks| - 1];
      var before := Flatten(init);
      TicksSplit(ticks);
      WellFormedParts(before, last);
      MessageCount(init);
      BatchOfEvents(last);
      CountValuesWellFormed(before);
      CountValuesWellFormed(before + last);
      EndNeedsMessageLast(ticks);
      hide EncodeTicks;
      hide Flatten;
      hide BatchOf;
      hide CountValues;
      hide EndNeedsMessage;
      if last == [] {
        assert before + last == before;
      } else {
        assert (before + last)[|before + last| - 1] == last[|last| - 1];
      }
    }
  }
}
