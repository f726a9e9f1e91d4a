/**
 * `sendReply()` as a state machine: the events of a handler's response, the
 * batch of the current tick, the promise chain that publishes one reply after
 * another, the failure and the cut by `close()`, and what ends the call.
 *
 * Each step is one uninterrupted piece of the code (what runs between two
 * awaits, or one `process.nextTick` callback). The event loop, the broker and
 * `close()` choose the order of the steps: every interleaving is a run.
 */
module ReplyPipeline {
  import opened Values
  import opened ReplyCodec

  /** What the promise chain is doing: nothing, a reply, or the error reply in its place. */
  datatype Job = Idle | Publishing | Replacing

  /**
   * How a publish ends. `SentNotClosed`: the message went out, but its sender
   * failed to close, which the code takes for a failed publish.
   */
  datatype PublishResult = Sent | NotSent | SentNotClosed

  datatype ReplyOutcome = Resolved | CancelledByClose

  /** The response and what `schedule()` made of it. */
  datatype Source = Source(
    ticks: seq<seq<Event>>,   // history: the events of the ticks that are over
    tick: seq<Event>,         // history: the events since then
    done: bool,
    batch: seq<Packet>,       // `batch`; empty is undefined
    answered: bool,           // the local `replied`: the single reply is queued
    scheduled: seq<Packet>    // every packet given to respond(), in order
  )

  /** The promise chain `publishing` and its flags. */
  datatype Chain = Chain(
    started: nat,             // jobs started
    settled: nat,             // jobs over
    job: Job,
    failed: bool,
    cancelled: bool
  )

  /** The fields of the response's `FollowedObservable`. */
  datatype Stream = Stream(stopped: bool, cancelledByClose: bool, replied: bool)

  /** What `finished` and the call itself wait for. */
  datatype Ending = Ending(
    queued: bool,             // end() was called
    ended: bool,              // endResponse() was called
    awaited: Option<nat>,     // how many jobs `finished` waits for
    outcome: Option<ReplyOutcome>
  )

  /** History: what publish() was called for and what reached the reply queue. */
  datatype Wire = Wire(
    messages: seq<Message>,
    sent: nat,                // scheduled packets among them
    acked: bool,              // a publish resolved
    errorTried: bool,         // the error reply's publish is over
    errorSent: bool,          // the error reply reached the queue
    endNotClosed: bool,       // the end of the response was `SentNotClosed`
    publishes: nat            // calls of publish()
  )

  datatype Pipeline = Pipeline(
    id: string,
    single: bool,             // a 1.1.0 client: one reply only
    source: Source,
    chain: Chain,
    stream: Stream,
    ending: Ending,
    wire: Wire
  )

  datatype Step =
    | Emit(event: Event)
    | Flush
    | StartJob
    | PublishSettles(result: PublishResult)
    | ErrorSettles(result: PublishResult)
    | Cut
    | EndTick
    | AwaitEnded
    | Return

  function Start(id: string, single: bool): Pipeline {
    Pipeline(id, single,
             Source([], [], false, [], false, []),
             Chain(0, 0, Idle, false, false),
             Stream(false, false, false),
             Ending(false, false, None, None),
             Wire([], 0, false, false, false, false, 0))
  }

  /** Everything the source emitted. */
  function Events(source: Source): seq<Event> {
    Flatten(source.ticks) + source.tick
  }

  /** Whether the `finished` promise is settled: `close()` waits for no more. */
  predicate Finished(p: Pipeline) {
    p.ending.awaited.Some? && p.chain.settled >= p.ending.awaited.value
  }

  // ------------------------------------------------------------- the steps

  function ScheduleIn(single: bool, s: Source, packet: Packet): Source {
    if single then
      if s.answered then s
      else s.(answered := true, scheduled := s.scheduled + [packet.(isDisposed := true)])
    else
      s.(batch := Schedule(s.batch, packet))
  }

  /** `take(1)` completes the source of a 1.1.0 client with its first value. */
  function SourceEvents(single: bool, e: Event): seq<Event> {
    if single && e.Next? then [e, Complete] else [e]
  }

  function EmitIn(single: bool, s: Source, e: Event): Source {
    var next := ScheduleIn(single, s, PacketOf(e)).(tick := s.tick + SourceEvents(single, e));
    if !e.Next? then next.(done := true)
    else if single then ScheduleIn(single, next, PacketOf(Complete)).(done := true)
    else next
  }

  function FlushIn(s: Source): Source {
    s.(ticks := s.ticks + [s.tick], tick := [], scheduled := s.scheduled + s.batch, batch := [])
  }

  /** `FollowedObservable.stop()`, whose `onStop` ends the response. */
  function Stop(p: Pipeline, byClose: bool): Pipeline {
    if p.stream.stopped then p
    else p.(stream := p.stream.(stopped := true, cancelledByClose := byClose),
            ending := p.ending.(ended := true))
  }

  function JobOver(p: Pipeline): Pipeline {
    p.(chain := p.chain.(settled := p.chain.settled + 1, job := Idle),
       stream := p.stream.(replied := p.stream.replied || !p.chain.cancelled))
  }

  function StartJobIn(p: Pipeline): Pipeline {
    var next := p.(chain := p.chain.(started := p.chain.started + 1));
    if p.chain.failed || p.stream.stopped then JobOver(next)
    else CallPublish(next, Publishing)
  }

  function CallPublish(p: Pipeline, job: Job): Pipeline {
    p.(chain := p.chain.(job := job), wire := p.wire.(publishes := p.wire.publishes + 1))
  }

  function PublishFailed(p: Pipeline): Pipeline {
    if p.stream.cancelledByClose then JobOver(p.(chain := p.chain.(failed := true, cancelled := true)))
    else
      var next := Stop(p.(chain := p.chain.(failed := true)), false);
      if p.single then JobOver(next) else CallPublish(next, Replacing)
  }

  function Delivered(id: string, w: Wire, packet: Packet, result: PublishResult): Wire {
    if result.NotSent? then w
    else w.(messages := w.messages + [ToMessage(id, packet)], sent := w.sent + 1,
            acked := w.acked || result.Sent?,
            endNotClosed := w.endNotClosed || (result.SentNotClosed? && packet.isDisposed))
  }

  function PublishSettlesIn(p: Pipeline, result: PublishResult): Pipeline
    requires p.chain.settled < |p.source.scheduled|
  {
    var next := p.(wire := Delivered(p.id, p.wire, p.source.scheduled[p.chain.settled], result));
    if result.Sent? then JobOver(next) else PublishFailed(next)
  }

  function ErrorSettlesIn(p: Pipeline, result: PublishResult): Pipeline {
    var tried := p.wire.(errorTried := true);
    JobOver(p.(wire :=
      if result.NotSent? then tried
      else tried.(messages := p.wire.messages + [ToMessage(p.id, GENERIC_ERROR)], errorSent := true)))
  }

  function ReturnIn(p: Pipeline): Pipeline {
    p.(ending := p.ending.(outcome :=
      Some(if p.stream.cancelledByClose && !p.stream.replied then CancelledByClose else Resolved)))
  }

  predicate Enabled(p: Pipeline, step: Step) {
    match step
    case Emit(_) => !p.stream.stopped && !p.source.done
    case Flush => p.source.batch != []
    case StartJob => p.chain.job.Idle? && p.chain.settled < |p.source.scheduled|
    case PublishSettles(_) => p.chain.job.Publishing? && p.chain.settled < |p.source.scheduled|
    case ErrorSettles(_) => p.chain.job.Replacing?
    case Cut => !Finished(p)
    case EndTick => p.ending.queued && !p.ending.ended && p.source.batch == []
    case AwaitEnded => p.ending.ended && p.ending.awaited.None?
    case Return => p.ending.outcome.None? && (p.chain.settled > 0 || Finished(p))
  }

  function Apply(p: Pipeline, step: Step): Pipeline
    requires Enabled(p, step)
  {
    match step
    case Emit(e) =>
      var next := EmitIn(p.single, p.source, e);
      p.(source := next, ending := p.ending.(queued := next.done))
    case Flush => p.(source := FlushIn(p.source))
    case StartJob => StartJobIn(p)
    case PublishSettles(result) => PublishSettlesIn(p, result)
    case ErrorSettles(result) => ErrorSettlesIn(p, result)
    case Cut => Stop(p, true)
    case EndTick => p.(ending := p.ending.(ended := true))
    case AwaitEnded => p.(ending := p.ending.(awaited := Some(|p.source.scheduled|)))
    case Return => ReturnIn(p)
  }

  /** Whether `steps` is a run from `p`. */
  predicate Legal(p: Pipeline, steps: seq<Step>)
    decreases |steps|
  {
    steps == [] || (Enabled(p, steps[0]) && Legal(Apply(p, steps[0]), steps[1..]))
  }

  function Exec(p: Pipeline, steps: seq<Step>): Pipeline
    requires Legal(p, steps)
    decreases |steps|
  {
    if steps == [] then p else Exec(Apply(p, steps[0]), steps[1..])
  }

  // ------------------------------------------------------------- invariant

  ghost predicate SourceInv(single: bool, s: Source) {
    && WellFormed(Events(s))
    && (s.done <==> Terminated(Events(s)))
    && (!single ==> s.scheduled == EncodeTicks(s.ticks) && s.batch == BatchOf(s.tick) && !s.answered)
    && (single ==> s.batch == [] && s.ticks == [] && SingleReply(s))
  }

  /** A 1.1.0 client: the first event of the source ends it and is its only reply. */
  ghost predicate SingleReply(s: Source) {
    && (s.answered <==> s.tick != [])
    && (s.done <==> s.tick != [])
    && s.scheduled == if s.tick == [] then [] else [PacketOf(s.tick[0]).(isDisposed := true)]
  }

  ghost predicate ChainInv(single: bool, scheduled: nat, c: Chain, s: Stream, w: Wire) {
    && c.settled <= c.started <= scheduled
    && c.started == (if c.job.Idle? then c.settled else c.settled + 1)
    && (c.job.Publishing? ==> !c.failed && w.sent == c.settled)
    && (c.job.Replacing? ==> c.failed && !s.cancelledByClose && !single && !w.errorTried)
    && (!s.stopped ==> w.sent == c.settled && !c.failed)
    && (s.cancelledByClose ==> s.stopped)
    && (c.cancelled ==> s.cancelledByClose && c.failed)
    && (c.failed ==> s.stopped && c.started > 0)
    && (s.replied ==> c.settled > 0)
    && (c.settled > 0 && !s.cancelledByClose ==> s.replied)
    && (w.acked ==> s.replied && w.sent > 0)
    && w.sent <= c.started
  }

  /** The error reply, if it went out. */
  function ErrorReplies(id: string, w: Wire): seq<Message> {
    if w.errorSent then [ToMessage(id, GENERIC_ERROR)] else []
  }

  ghost predicate WireInv(id: string, single: bool, scheduled: seq<Packet>, c: Chain, s: Stream, w: Wire) {
    && w.sent <= |scheduled|
    && w.messages == Messages(id, scheduled[..w.sent]) + ErrorReplies(id, w)
    && (w.errorSent ==> w.errorTried)
    && (w.errorTried ==> c.failed && !single)
    && (w.endNotClosed ==> c.failed && w.sent > 0)
    && (c.failed && w.sent > 0 ==> (w.endNotClosed <==> scheduled[w.sent - 1].isDisposed))
    && (c.failed && !s.cancelledByClose && !single ==> c.job.Replacing? || w.errorTried)
  }

  ghost predicate EndInv(s: Source, t: Stream, e: Ending) {
    && (e.queued <==> s.done)
    && (t.stopped ==> e.ended)
    && (e.ended && !t.stopped ==> s.done && s.batch == [])
    && (e.awaited.Some? ==> e.ended && e.awaited.value <= |s.scheduled|)
    && (e.awaited.Some? && !t.stopped ==> e.awaited.value == |s.scheduled|)
  }

  ghost predicate Inv(p: Pipeline) {
    && SourceInv(p.single, p.source)
    && ChainInv(p.single, |p.source.scheduled|, p.chain, p.stream, p.wire)
    && WireInv(p.id, p.single, p.source.scheduled, p.chain, p.stream, p.wire)
    && EndInv(p.source, p.stream, p.ending)
  }

  lemma {:induction false} StartInv(id: string, single: bool)
    ensures Inv(Start(id, single))
  {
  }

  // ----------------------------------------- the source and the scheduling

  lemma {:induction false} BatchOfMore(tick: seq<Event>, e: Event)
    ensures BatchOf(tick + [e]) == Schedule(BatchOf(tick), PacketOf(e))
  {
    assert (tick + [e])[..|tick|] == tick;
  }

  lemma {:induction false} WellFormedMore(events: seq<Event>, es: seq<Event>)
    requires WellFormed(events) && !Terminated(events) && WellFormed(es)
    ensures WellFormed(events + es)
    ensures es != [] ==> (Terminated(events + es) <==> Terminated(es))
  {
    forall i | 0 <= i < |events + es| - 1 ensures (events + es)[i].Next? {
      if i < |events| { assert (events + es)[i] == events[i]; }
    }
  }

  lemma {:induction false} EmitEvents(single: bool, s: Source, e: Event)
    ensures Events(EmitIn(single, s, e)) == Events(s) + SourceEvents(single, e)
    ensures s.scheduled <= EmitIn(single, s, e).scheduled
    ensures EmitIn(single, s, e).done <==> s.done || single || !e.Next?
  {
    hide Flatten;
    hide Schedule;
    assert EmitIn(single, s, e).tick == s.tick + SourceEvents(single, e);
  }

  /** A 1.1.0 client: the first event is also the end. */
  lemma {:induction false} EmitSingle(s: Source, e: Event)
    requires SingleReply(s) && s.batch == [] && !s.done
    ensures SingleReply(EmitIn(true, s, e))
    ensures EmitIn(true, s, e).batch == [] && EmitIn(true, s, e).ticks == s.ticks
  {
    assert EmitIn(true, s, e).tick == SourceEvents(true, e);
  }

  lemma {:induction false} EmitSource(single: bool, s: Source, e: Event)
    requires SourceInv(single, s) && !s.done
    ensures SourceInv(single, EmitIn(single, s, e))
    ensures s.scheduled <= EmitIn(single, s, e).scheduled
  {
    EmitEvents(single, s, e);
    WellFormedMore(Events(s), SourceEvents(single, e));
    if single {
      EmitSingle(s, e);
    } else {
      BatchOfMore(s.tick, e);
      assert EmitIn(false, s, e).tick == s.tick + [e];
    }
    hide Events;
    hide BatchOf;
    hide EncodeTicks;
    hide Flatten;
    hide Schedule;
    hide SingleReply;
    hide WellFormed;
  }

  lemma {:induction false} FlushTicks(ticks: seq<seq<Event>>, tick: seq<Event>)
    ensures EncodeTicks(ticks + [tick]) == EncodeTicks(ticks) + BatchOf(tick)
    ensures Flatten(ticks + [tick]) == Flatten(ticks) + tick
  {
    assert (ticks + [tick])[..|ticks|] == ticks;
  }

  lemma {:induction false} FlushSource(single: bool, s: Source)
    requires SourceInv(single, s) && s.batch != []
    ensures SourceInv(single, FlushIn(s))
    ensures s.scheduled <= FlushIn(s).scheduled
  {
    FlushTicks(s.ticks, s.tick);
    hide EncodeTicks;
    hide Flatten;
    assert Events(FlushIn(s)) == Events(s);
    assert BatchOf([]) == [];
  }

  /** Only the last packet ever scheduled ends the response. */
  lemma {:induction false} OnlyLastDisposed(single: bool, s: Source)
    requires SourceInv(single, s)
    ensures EndsLast(s.scheduled)
    ensures !single ==> Encodes(s.scheduled, Flatten(s.ticks))
  {
    WellFormedParts(Flatten(s.ticks), s.tick);
    if !single { EncodeTicksEncodes(s.ticks); }
  }

  // --------------------------------------------------- the chain and the wire

  /** Packets scheduled later do not change what went out. */
  lemma {:induction false} MoreScheduled(p: Pipeline, scheduled: seq<Packet>)
    requires Inv(p) && p.source.scheduled <= scheduled
    ensures ChainInv(p.single, |scheduled|, p.chain, p.stream, p.wire)
    ensures WireInv(p.id, p.single, scheduled, p.chain, p.stream, p.wire)
  {
    hide SourceInv;
    hide Messages;
    assert scheduled[..p.wire.sent] == p.source.scheduled[..p.wire.sent];
  }

  lemma {:induction false} MessagesMore(id: string, packets: seq<Packet>, k: nat)
    requires k < |packets|
    ensures Messages(id, packets[..k + 1]) == Messages(id, packets[..k]) + [ToMessage(id, packets[k])]
  {
    assert packets[..k + 1] == packets[..k] + [packets[k]];
  }

  lemma {:induction false} StepSchedules(p: Pipeline, step: Step)
    requires Inv(p) && Enabled(p, step) && (step.Emit? || step.Flush?)
    ensures Inv(Apply(p, step))
  {
    if step.Emit? {
      EmitSource(p.single, p.source, step.event);
    } else {
      FlushSource(p.single, p.source);
    }
    var p' := Apply(p, step);
    MoreScheduled(p, p'.source.scheduled);
    hide SourceInv;
    hide ChainInv;
    hide WireInv;
    hide Schedule;
  }

  lemma {:induction false} StepStartJob(p: Pipeline)
    requires Inv(p) && Enabled(p, StartJob)
    ensures Inv(Apply(p, StartJob))
  {
    hide SourceInv;
    hide Messages;
    hide ToMessage;
  }

  /** The message of a settled publish is the next scheduled packet's. */
  lemma {:induction false} DeliveredWire(p: Pipeline, result: PublishResult)
    requires Inv(p) && Enabled(p, PublishSettles(result))
    ensures
      var w := Delivered(p.id, p.wire, p.source.scheduled[p.chain.settled], result);
      && w.sent <= |p.source.scheduled|
      && w.messages == Messages(p.id, p.source.scheduled[..w.sent])
      && !w.errorSent && !w.errorTried
      && (!result.Sent? && w.sent > 0 ==> (w.endNotClosed <==> p.source.scheduled[w.sent - 1].isDisposed))
      && (w.endNotClosed ==> w.sent > 0 && !result.Sent?)
  {
    OnlyLastDisposed(p.single, p.source);
    MessagesMore(p.id, p.source.scheduled, p.wire.sent);
    hide SourceInv;
    hide Messages;
    hide ToMessage;
    hide Encodes;
  }

  lemma {:induction false} PublishFailedWire(p: Pipeline)
    requires p.wire.sent <= |p.source.scheduled|
    requires p.wire.messages == Messages(p.id, p.source.scheduled[..p.wire.sent])
    requires !p.wire.errorSent && !p.wire.errorTried
    requires p.wire.sent > 0 ==> (p.wire.endNotClosed <==> p.source.scheduled[p.wire.sent - 1].isDisposed)
    requires p.wire.endNotClosed ==> p.wire.sent > 0
    requires p.stream.cancelledByClose ==> p.stream.stopped
    ensures
      var q := PublishFailed(p);
      WireInv(q.id, q.single, q.source.scheduled, q.chain, q.stream, q.wire)
  {
    hide Messages;
    hide ToMessage;
  }

  lemma {:induction false} PublishSettlesWire(p: Pipeline, result: PublishResult)
    requires Inv(p) && Enabled(p, PublishSettles(result))
    ensures
      var q := PublishSettlesIn(p, result);
      WireInv(q.id, q.single, q.source.scheduled, q.chain, q.stream, q.wire)
  {
    DeliveredWire(p, result);
    var w := Delivered(p.id, p.wire, p.source.scheduled[p.chain.settled], result);
    if !result.Sent? { PublishFailedWire(p.(wire := w)); }
    hide PublishFailed;
    hide SourceInv;
    hide EndInv;
    hide Messages;
    hide ToMessage;
    hide Delivered;
  }

  lemma {:induction false} PublishSettlesChain(p: Pipeline, result: PublishResult)
    requires Inv(p) && Enabled(p, PublishSettles(result))
    ensures
      var q := PublishSettlesIn(p, result);
      && q.id == p.id && q.single == p.single && q.source == p.source
      && ChainInv(q.single, |q.source.scheduled|, q.chain, q.stream, q.wire)
      && EndInv(q.source, q.stream, q.ending)
  {
    assert !p.wire.errorTried;
    hide SourceInv;
    hide WireInv;
    hide ToMessage;
  }

  lemma {:induction false} StepPublishSettles(p: Pipeline, result: PublishResult)
    requires Inv(p) && Enabled(p, PublishSettles(result))
    ensures Inv(Apply(p, PublishSettles(result)))
  {
    PublishSettlesWire(p, result);
    PublishSettlesChain(p, result);
    hide PublishSettlesIn;
  }

  lemma {:induction false} StepErrorSettles(p: Pipeline, result: PublishResult)
    requires Inv(p) && Enabled(p, ErrorSettles(result))
    ensures Inv(Apply(p, ErrorSettles(result)))
  {
    hide SourceInv;
    hide Messages;
    hide ToMessage;
  }

  lemma {:induction false} StepEnding(p: Pipeline, step: Step)
    requires Inv(p) && Enabled(p, step)
    requires step.Cut? || step.EndTick? || step.AwaitEnded? || step.Return?
    ensures Inv(Apply(p, step))
  {
    hide SourceInv;
    hide Messages;
    hide ErrorReplies;
  }

  lemma {:induction false} StepInv(p: Pipeline, step: Step)
    requires Inv(p) && Enabled(p, step)
    ensures Inv(Apply(p, step))
  {
    match step {
      case Emit(_) => StepSchedules(p, step);
      case Flush => StepSchedules(p, step);
      case StartJob => StepStartJob(p);
      case PublishSettles(result) => StepPublishSettles(p, result);
      case ErrorSettles(result) => StepErrorSettles(p, result);
      case _ => StepEnding(p, step);
    }
  }

  /** Every state of every run satisfies the invariant. */
  lemma {:induction false} RunInv(p: Pipeline, steps: seq<Step>)
    requires Inv(p) && Legal(p, steps)
    ensures Inv(Exec(p, steps))
    ensures Exec(p, steps).id == p.id && Exec(p, steps).single == p.single
    decreases |steps|
  {
    hide Inv;
    if steps != [] {
      StepInv(p, steps[0]);
      RunInv(Apply(p, steps[0]), steps[1..]);
    }
  }
}
