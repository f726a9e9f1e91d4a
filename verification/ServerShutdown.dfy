/**
 * What `close()` of the server waits for and gives up on, as a state machine:
 * the messages being handled, the Observables of their handlers being followed,
 * and the generation that tells those from before a give-up.
 *
 * A request's response is a run of `sendReply()`; an event handler's Observable
 * is followed to its end.
 */
module ServerShutdown {
  import opened Outcomes
  import opened Values
  import Pipe = ReplyPipeline
  import Replies = ReplyGuarantees

  /** An Observable that a handler returned and the server subscribed. */
  datatype Stream =
    | Response(work: nat, generation: nat, pipeline: Pipe.Pipeline)
    | Result(work: nat, generation: nat, ended: Option<bool>, stopped: bool)   // of an event; whether it succeeded

  /** Where a call of `processMessage()` is. */
  datatype Phase =
    | Deserializing              // an event whose handler has not been looked up
    | Handling                   // until the handler returns or fails
    | Following(stream: nat)     // until its Observable is over, or had its first reply
    | Settling(outcome: Outcome)
    | Done(outcome: Outcome)

  datatype Work = Work(
    request: bool,
    generation: Option<nat>,     // the one it read
    phase: Phase,
    stream: Option<nat>,         // history: the Observable it was subscribed as
    givenUp: bool                // history: a close() stopped waiting for it
  )

  datatype Server = Server(
    generation: nat,
    works: seq<Work>,            // history: every message handled, in order
    streams: seq<Stream>,        // history: every Observable subscribed, in order
    inFlight: set<nat>,
    following: set<nat>
  )

  datatype Step =
    | Deliver(request: bool)
    | Reject
    | Begin(work: nat)
    | Ends(work: nat, ok: bool)
    | ReturnsObservable(work: nat, correlationId: string, single: bool)
    | ResponseStep(stream: nat, step: Pipe.Step)
    | ResultEnds(stream: nat, ok: bool)
    | Resumes(work: nat)
    | Settled(work: nat)
    | GiveUp

  function NewServer(): Server {
    Server(0, [], [], {}, {})
  }

  // --------------------------------------------------------------- streams

  /** Whether the promise `close()` waits for has settled. */
  predicate Over(x: Stream) {
    match x
    case Response(_, _, p) => Pipe.Finished(p)
    case Result(_, _, ended, stopped) => ended.Some? || stopped
  }

  /** Whether the server is subscribed to an Observable that has not ended. */
  predicate Active(x: Stream) {
    match x
    case Response(_, _, p) => !p.stream.stopped && !p.source.done
    case Result(_, _, ended, stopped) => ended.None? && !stopped
  }

  /** How following the stream turned out, once its message handler can go on. */
  function OutcomeOf(x: Stream): Option<Outcome> {
    match x
    case Response(_, _, p) =>
      (match p.ending.outcome
       case None => None
       case Some(Resolved) => Some(Succeeded)
       case Some(CancelledByClose) => Some(CancelledByClose))
    case Result(_, _, ended, stopped) =>
      if ended.Some? then Some(if ended.value then Succeeded else Failed)
      else if stopped then Some(CancelledByClose)
      else None
  }

  /** `stop(true)` of a followed stream */
  function CutStream(x: Stream): Stream {
    match x
    case Response(_, _, p) => x.(pipeline := Pipe.Stop(p, true))
    case Result(_, _, _, _) => x.(stopped := true)
  }

  // ------------------------------------------------------------- the steps

  function SetPhase(s: Server, w: nat, phase: Phase): Server
    requires w < |s.works|
  {
    s.(works := s.works[w := s.works[w].(phase := phase)])
  }

  /** `track()` of a message's handling */
  function Arrive(s: Server, work: Work): Server {
    s.(works := s.works + [work], inFlight := s.inFlight + {|s.works|})
  }

  /** The check of the generation, then `sendReply()` or `followToEnd()` up to its await. */
  function Subscribe(s: Server, w: nat, correlationId: string, single: bool): Server
    requires w < |s.works|
  {
    var x := s.works[w];
    if x.generation != Some(s.generation) then SetPhase(s, w, Settling(CancelledByClose))
    else
      var stream :=
        if x.request then Response(w, s.generation, Pipe.Start(correlationId, single))
        else Result(w, s.generation, None, false);
      s.(works := s.works[w := x.(phase := Following(|s.streams|), stream := Some(|s.streams|))],
         streams := s.streams + [stream], following := s.following + {|s.streams|})
  }

  /** A stream moved on; it is forgotten once it is over. */
  function PutStream(s: Server, k: nat, x: Stream): Server
    requires k < |s.streams|
  {
    s.(streams := s.streams[k := x], following := if Over(x) then s.following - {k} else s.following)
  }

  function CutAll(s: Server): (r: seq<Stream>)
    ensures |r| == |s.streams|
    ensures forall k :: 0 <= k < |r| ==> r[k] == if k in s.following then CutStream(s.streams[k]) else s.streams[k]
  {
    seq(|s.streams|, k requires 0 <= k < |s.streams| =>
      if k in s.following then CutStream(s.streams[k]) else s.streams[k])
  }

  function GiveUpAll(s: Server): (r: seq<Work>)
    ensures |r| == |s.works|
    ensures forall w :: 0 <= w < |r| ==> r[w] == s.works[w].(givenUp := s.works[w].givenUp || w in s.inFlight)
  {
    seq(|s.works|, w requires 0 <= w < |s.works| =>
      s.works[w].(givenUp := s.works[w].givenUp || w in s.inFlight))
  }

  predicate Enabled(s: Server, step: Step) {
    match step
    case Deliver(_) => true
    case Reject => true
    case Begin(w) => w < |s.works| && s.works[w].phase.Deserializing?
    case Ends(w, ok) =>
      && w < |s.works| && (s.works[w].phase.Handling? || s.works[w].phase.Deserializing?)
      && (s.works[w].request ==> !ok)
    case ReturnsObservable(w, _, _) => w < |s.works| && s.works[w].phase.Handling?
    case ResponseStep(k, step) =>
      k < |s.streams| && s.streams[k].Response? && !step.Cut? && Pipe.Enabled(s.streams[k].pipeline, step)
    case ResultEnds(k, _) => k < |s.streams| && s.streams[k].Result? && Active(s.streams[k])
    case Resumes(w) =>
      && w < |s.works| && s.works[w].phase.Following? && s.works[w].phase.stream < |s.streams|
      && OutcomeOf(s.streams[s.works[w].phase.stream]).Some?
    case Settled(w) => w < |s.works| && s.works[w].phase.Settling?
    case GiveUp => s.inFlight != {} || s.following != {}
  }

  function Apply(s: Server, step: Step): Server
    requires Enabled(s, step)
  {
    match step
    case Deliver(request) =>
      Arrive(s, if request then Work(true, Some(s.generation), Handling, None, false)
                else Work(false, None, Deserializing, None, false))
    case Reject => Arrive(s, Work(true, None, Settling(Rejected), None, false))
    case Begin(w) => s.(works := s.works[w := s.works[w].(generation := Some(s.generation), phase := Handling)])
    case Ends(w, ok) => SetPhase(s, w, Settling(if ok then Succeeded else Failed))
    case ReturnsObservable(w, correlationId, single) => Subscribe(s, w, correlationId, single)
    case ResponseStep(k, step) =>
      PutStream(s, k, s.streams[k].(pipeline := Pipe.Apply(s.streams[k].pipeline, step)))
    case ResultEnds(k, ok) => PutStream(s, k, s.streams[k].(ended := Some(ok)))
    case Resumes(w) => SetPhase(s, w, Settling(OutcomeOf(s.streams[s.works[w].phase.stream]).value))
    case Settled(w) =>
      SetPhase(s, w, Done(s.works[w].phase.outcome)).(inFlight := s.inFlight - {w})
    case GiveUp => Server(s.generation + 1, GiveUpAll(s), CutAll(s), {}, {})
  }

  predicate Legal(s: Server, steps: seq<Step>)
    decreases |steps|
  {
    steps == [] || (Enabled(s, steps[0]) && Legal(Apply(s, steps[0]), steps[1..]))
  }

  function Exec(s: Server, steps: seq<Step>): Server
    requires Legal(s, steps)
    decreases |steps|
  {
    if steps == [] then s else Exec(Apply(s, steps[0]), steps[1..])
  }

  // -------------------------------------------------------------- invariant

  /** The response's `sendReply()` resolved. */
  predicate Resolved(x: Stream) {
    x.Response? && x.pipeline.ending.outcome == Some(Pipe.Resolved)
  }

  ghost predicate WorkOk(s: Server, w: nat)
    requires w < |s.works|
  {
    var x := s.works[w];
    && (w in s.inFlight <==> !x.phase.Done? && !x.givenUp)
    && (x.generation.Some? ==> x.generation.value <= s.generation)
    && (!x.givenUp && !x.phase.Done? && x.generation.Some? ==> x.generation.value == s.generation)
    && (x.phase.Deserializing? ==> x.generation.None?)
    && (x.phase.Handling? || x.phase.Following? ==> x.generation.Some?)
    && (x.stream.Some? ==> x.stream.value < |s.streams| && s.streams[x.stream.value].work == w)
    && (x.phase.Following? ==> x.stream == Some(x.phase.stream))
    && (x.request && (x.phase == Settling(Succeeded) || x.phase == Done(Succeeded)) ==>
          x.stream.Some? && Resolved(s.streams[x.stream.value]))
  }

  /** No further publish of the response will start. */
  ghost predicate NoMorePublishes(p: Pipe.Pipeline) {
    Replies.Quiet(p) || (p.stream.stopped && !p.chain.job.Publishing?)
  }

  /** What became of a stream from before a give-up. */
  ghost predicate Ceased(x: Stream) {
    !Active(x) && (x.Response? ==> NoMorePublishes(x.pipeline))
  }

  ghost predicate StreamOk(s: Server, k: nat)
    requires k < |s.streams|
  {
    var x := s.streams[k];
    && (k in s.following <==> x.generation == s.generation && !Over(x))
    && x.generation <= s.generation
    && x.work < |s.works| && s.works[x.work].generation == Some(x.generation)
    && s.works[x.work].request == x.Response?
    && (x.Response? ==> Replies.Sound(x.pipeline))
    && (x.generation < s.generation ==> Ceased(x))
  }

  ghost predicate Inv(s: Server) {
    && (forall w :: 0 <= w < |s.works| ==> WorkOk(s, w))
    && (forall k :: 0 <= k < |s.streams| ==> StreamOk(s, k))
    && (forall w :: w in s.inFlight ==> w < |s.works|)
    && (forall k :: k in s.following ==> k < |s.streams|)
  }

  // ------------------------------------------------ one stream moving on

  lemma {:induction false} PublishesNoMore(p: Pipe.Pipeline, step: Pipe.Step)
    requires Pipe.Inv(p) && Pipe.Enabled(p, step) && NoMorePublishes(p)
    ensures NoMorePublishes(Pipe.Apply(p, step))
    ensures Pipe.Apply(p, step).wire.publishes == p.wire.publishes
  {
    if Replies.Quiet(p) {
      Replies.StepQuiet(p, step);
    } else {
      hide Pipe.SourceInv;
      hide Pipe.WireInv;
      hide Pipe.EndInv;
      hide Pipe.EmitIn;
    }
  }

  /** What a step of a response's own run means for the server. */
  lemma {:induction false} ResponseMoves(x: Stream, step: Pipe.Step)
    requires x.Response? && Replies.Sound(x.pipeline)
    requires Pipe.Enabled(x.pipeline, step)
    ensures
      var y := x.(pipeline := Pipe.Apply(x.pipeline, step));
      && Replies.Sound(y.pipeline)
      && (Ceased(x) ==> Ceased(y) && y.pipeline.wire.publishes == x.pipeline.wire.publishes)
      && (Over(x) ==> Over(y)) && (Resolved(x) ==> Resolved(y))
  {
    Pipe.StepInv(x.pipeline, step);
    Replies.StepAck(x.pipeline, step);
    Replies.StepOutcome(x.pipeline, step);
    if x.pipeline.ending.outcome.Some? { OutcomeStays(x.pipeline, step); }
    if NoMorePublishes(x.pipeline) { PublishesNoMore(x.pipeline, step); }
    StaysInactive(x.pipeline, step);
    hide Pipe.Inv;
    hide Pipe.Apply;
    hide Pipe.Enabled;
    hide Replies.AckInv;
    hide Replies.OutcomeInv;
    hide NoMorePublishes;
  }

  lemma {:induction false} OutcomeStays(p: Pipe.Pipeline, step: Pipe.Step)
    requires Pipe.Enabled(p, step) && p.ending.outcome.Some?
    ensures Pipe.Apply(p, step).ending.outcome == p.ending.outcome
  {
    hide Pipe.EmitIn;
    hide Pipe.FlushIn;
  }

  lemma {:induction false} StaysInactive(p: Pipe.Pipeline, step: Pipe.Step)
    requires Pipe.Inv(p) && Pipe.Enabled(p, step)
    ensures
      var q := Pipe.Apply(p, step);
      && (p.stream.stopped || p.source.done ==> q.stream.stopped || q.source.done)
      && (Pipe.Finished(p) ==> Pipe.Finished(q))
  {
    hide Pipe.SourceInv;
    hide Pipe.WireInv;
    hide Pipe.ScheduleIn;
    hide Pipe.Delivered;
  }

  /** A response that is cut, or was over when the others were cut. */
  lemma {:induction false} CutResponseCeases(x: Stream)
    requires x.Response? && Replies.Sound(x.pipeline)
    ensures !Over(x) ==> Replies.Sound(CutStream(x).pipeline)
    ensures !Over(x) ==> Ceased(CutStream(x))
    ensures Over(x) ==> Ceased(x)
  {
    if Over(x) {
      Replies.FinishedDrains(x.pipeline);
    } else {
      Pipe.StepInv(x.pipeline, Pipe.Cut);
      Replies.StepAck(x.pipeline, Pipe.Cut);
      Replies.StepOutcome(x.pipeline, Pipe.Cut);
    }
    hide Pipe.SourceInv;
    hide Pipe.WireInv;
  }
}
