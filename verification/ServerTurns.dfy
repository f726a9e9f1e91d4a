/**
 * The server's handlers, responses and settlements in the turns of Node's event
 * loop: any number of responses share the phases of a turn, and `close()` cuts
 * them in the promise callbacks that follow its timer.
 */
module ServerTurns {
  import opened Outcomes
  import opened Values
  import opened MessageHandling
  import Loop = ReplyEventLoop
  import Server = ServerShutdown
  import Guarantees = ServerGuarantees
  import Ledger = MessageSettlement
  import Pipe = ReplyPipeline
  import Replies = ReplyGuarantees

  datatype Turns = Turns(handling: Handling, phase: Loop.Phase)

  datatype TurnStep = Runs(step: Step) | Goes(to: Loop.Phase)

  function NoTurnYet(checks: bool, phase: Loop.Phase): Turns {
    Turns(NothingYet(checks), phase)
  }

  predicate TickDue(streams: seq<Server.Stream>) {
    exists k :: 0 <= k < |streams| && streams[k].Response? && Loop.TickDue(streams[k].pipeline)
  }

  predicate PromiseDue(streams: seq<Server.Stream>) {
    exists k :: 0 <= k < |streams| && streams[k].Response? && Loop.PromiseDue(streams[k].pipeline)
  }

  /** A response's steps run where `ReplyEventLoop` says, the give-up after its timer, the rest anywhere. */
  predicate RunsIn(phase: Loop.Phase, step: Step) {
    match step
    case Moves(ResponseStep(_, s)) => Loop.RunsIn(phase, s)
    case Moves(GiveUp) => phase == Loop.Promises(true)
    case _ => true
  }

  predicate TurnEnabled(t: Turns, step: TurnStep) {
    match step
    case Runs(s) => Enabled(t.handling, s) && RunsIn(t.phase, s)
    case Goes(to) =>
      Loop.Follows(t.phase, to, TickDue(t.handling.server.streams), PromiseDue(t.handling.server.streams))
  }

  function TurnApply(t: Turns, step: TurnStep): Turns
    requires TurnEnabled(t, step)
  {
    match step
    case Runs(s) => t.(handling := Apply(t.handling, s))
    case Goes(to) => t.(phase := to)
  }

  predicate TurnLegal(t: Turns, steps: seq<TurnStep>)
    decreases |steps|
  {
    steps == [] || (TurnEnabled(t, steps[0]) && TurnLegal(TurnApply(t, steps[0]), steps[1..]))
  }

  function TurnExec(t: Turns, steps: seq<TurnStep>): Turns
    requires TurnLegal(t, steps)
    decreases |steps|
  {
    if steps == [] then t else TurnExec(TurnApply(t, steps[0]), steps[1..])
  }

  // -------------------------------------------------------------- invariant

  /** A 1.2.0 client's response is cut cleanly, or not at all. */
  ghost predicate ResponseOk(x: Server.Stream, phase: Loop.Phase) {
    x.Response? && !x.pipeline.single ==> Loop.LoopInv(Loop.Loop(x.pipeline, phase))
  }

  ghost predicate ResponsesOk(streams: seq<Server.Stream>, phase: Loop.Phase) {
    forall k :: 0 <= k < |streams| ==> ResponseOk(streams[k], phase)
  }

  ghost predicate TurnInv(t: Turns) {
    Inv(t.handling) && ResponsesOk(t.handling.server.streams, t.phase)
  }

  lemma {:induction false} ResponseStepKeeps(x: Server.Stream, phase: Loop.Phase, step: Pipe.Step)
    requires ResponseOk(x, phase) && x.Response? && Pipe.Enabled(x.pipeline, step) && Loop.RunsIn(phase, step)
    ensures ResponseOk(x.(pipeline := Pipe.Apply(x.pipeline, step)), phase)
  {
    hide Pipe.Apply;
    hide Pipe.Enabled;
    hide Replies.Sound;
    hide Loop.CutIsClean;
    Loop.StaysSo(x.pipeline, step);
    if !x.pipeline.single {
      Loop.CutOfNewClient(x.pipeline, phase, step);
      Loop.LoopStepKeeps(Loop.Loop(x.pipeline, phase), Loop.Moves(step));
    }
  }

  lemma {:induction false} CutKeeps(x: Server.Stream)
    requires ResponseOk(x, Loop.Promises(true)) && !Server.Over(x)
    ensures ResponseOk(Server.CutStream(x), Loop.Promises(true))
  {
    hide Loop.LoopInv;
    if x.Response? { ResponseStepKeeps(x, Loop.Promises(true), Pipe.Cut); }
  }

  lemma {:induction false} NewResponseOk(work: nat, generation: nat, id: string, single: bool, phase: Loop.Phase)
    ensures ResponseOk(Server.Response(work, generation, Pipe.Start(id, single)), phase)
  {
    Loop.SubscribedInv(id, single, phase);
    hide Loop.LoopInv;
  }

  /** What a step of the handlers makes of the streams. */
  lemma {:induction false} ServerStreams(s: Server.Server, step: Server.Step, phase: Loop.Phase)
    requires Server.Inv(s) && Server.Enabled(s, step) && ResponsesOk(s.streams, phase)
    requires step.ResponseStep? ==> Loop.RunsIn(phase, step.step)
    requires step.GiveUp? ==> phase == Loop.Promises(true)
    ensures ResponsesOk(Server.Apply(s, step).streams, phase)
  {
    hide ResponseOk;
    hide Pipe.Apply;
    hide Pipe.Enabled;
    match step {
      case ReturnsObservable(w, id, single) =>
        NewResponseOk(w, s.generation, id, single, phase);
        EventStreamOk(w, s.generation, None, false, phase);
      case ResponseStep(k, st) => ResponseStepKeeps(s.streams[k], phase, st);
      case ResultEnds(k, ok) =>
        EventStreamOk(s.streams[k].work, s.streams[k].generation, Some(ok), s.streams[k].stopped, phase);
      case GiveUp => GiveUpStreams(s);
      case _ => OtherStreams(s, step);
    }
    hide Server.Inv;
  }

  lemma {:induction false} EventStreamOk(
      work: nat, generation: nat, ended: Option<bool>, stopped: bool, phase: Loop.Phase)
    ensures ResponseOk(Server.Result(work, generation, ended, stopped), phase)
  {
  }

  lemma {:induction false} OtherStreams(s: Server.Server, step: Server.Step)
    requires Server.Enabled(s, step)
    requires !step.ReturnsObservable? && !step.ResponseStep? && !step.ResultEnds? && !step.GiveUp?
    ensures Server.Apply(s, step).streams == s.streams
  {
  }

  lemma {:induction false} GiveUpStreams(s: Server.Server)
    requires Server.Inv(s) && Server.Enabled(s, Server.GiveUp) && ResponsesOk(s.streams, Loop.Promises(true))
    ensures ResponsesOk(Server.Apply(s, Server.GiveUp).streams, Loop.Promises(true))
  {
    var t := Server.CutAll(s);
    forall k | 0 <= k < |t| ensures ResponseOk(t[k], Loop.Promises(true)) {
      assert Server.StreamOk(s, k);
      if k in s.following { CutKeeps(s.streams[k]); }
    }
    hide ResponseOk;
    hide Server.CutStream;
  }

  /** A step of a message's handling moves the server by at most one step. */
  lemma {:induction false} HandlingStreams(h: Handling, step: Step, phase: Loop.Phase)
    requires Inv(h) && Enabled(h, step) && ResponsesOk(h.server.streams, phase) && RunsIn(phase, step)
    ensures ResponsesOk(Apply(h, step).server.streams, phase)
  {
    hide Server.Inv;
    hide ResponsesOk;
    hide Server.Apply;
    hide Server.Enabled;
    hide Ledger.Apply;
    hide Ledger.Enabled;
    match step {
      case Deliver(delivery, answer) =>
        Arrivals(h.server, Server.Reject);
        Arrivals(h.server, Server.Deliver(delivery.replyTo));
      case DeserializeFails(w) => ServerStreams(h.server, Server.Ends(w, false), phase);
      case Deserialized(w, _) => if !h.server.works[w].request { ServerStreams(h.server, Server.Begin(w), phase); }
      case Moves(s) => ServerStreams(h.server, s, phase);
      case Forgotten(w) => ServerStreams(h.server, Server.Settled(w), phase);
      case _ =>
    }
  }

  lemma {:induction false} Arrivals(s: Server.Server, step: Server.Step)
    requires step.Reject? || step.Deliver?
    ensures Server.Enabled(s, step) && Server.Apply(s, step).streams == s.streams
  {
  }

  /** A phase ends for every response at once. */
  lemma {:induction false} PhaseKeeps(streams: seq<Server.Stream>, from: Loop.Phase, to: Loop.Phase)
    requires ResponsesOk(streams, from) && Loop.Follows(from, to, TickDue(streams), PromiseDue(streams))
    ensures ResponsesOk(streams, to)
  {
    forall k | 0 <= k < |streams| ensures ResponseOk(streams[k], to) {
      assert ResponseOk(streams[k], from);
      if streams[k].Response? && !streams[k].pipeline.single {
        Loop.PhaseIsClean(streams[k].pipeline, from, to, TickDue(streams), PromiseDue(streams));
      }
      hide Loop.PromiseDue;
      hide Loop.TickDue;
      hide Replies.Sound;
      hide Loop.CutIsClean;
      hide Loop.NoneQueuedByTimer;
      hide Loop.Follows;
    }
    hide ResponseOk;
  }

  lemma {:induction false} TurnStepKeeps(t: Turns, step: TurnStep)
    requires TurnInv(t) && TurnEnabled(t, step)
    ensures TurnInv(TurnApply(t, step))
  {
    hide Inv;
    hide ResponsesOk;
    hide Apply;
    hide Enabled;
    match step {
      case Runs(s) =>
        StepAgrees(t.handling, s);
        HandlingStreams(t.handling, s, t.phase);
      case Goes(to) => PhaseKeeps(t.handling.server.streams, t.phase, to);
    }
  }

  lemma {:induction false} TurnRunKeeps(t: Turns, steps: seq<TurnStep>)
    requires TurnInv(t) && TurnLegal(t, steps)
    ensures TurnInv(TurnExec(t, steps))
    decreases |steps|
  {
    hide TurnInv;
    if steps != [] {
      TurnStepKeeps(t, steps[0]);
      hide TurnApply;
      hide TurnEnabled;
      TurnRunKeeps(TurnApply(t, steps[0]), steps[1..]);
    }
  }

  // -------------------------------------------------------------- guarantee

  /** Whether some run in turns reaches `t`. */
  ghost predicate TurnReachable(t: Turns) {
    exists phase, steps ::
      && TurnLegal(NoTurnYet(t.handling.ledger.checks, phase), steps)
      && TurnExec(NoTurnYet(t.handling.ledger.checks, phase), steps) == t
  }

  lemma {:induction false} TurnReachableInv(t: Turns)
    requires TurnReachable(t)
    ensures TurnInv(t)
  {
    var phase, steps :|
      && TurnLegal(NoTurnYet(t.handling.ledger.checks, phase), steps)
      && TurnExec(NoTurnYet(t.handling.ledger.checks, phase), steps) == t;
    TurnRunKeeps(NoTurnYet(t.handling.ledger.checks, phase), steps);
    hide TurnExec;
    hide TurnLegal;
  }

  /**
   * What the rejection of a call that close() cut is for: a 1.2.0 client's request
   * is completed only if a reply of its response was acknowledged, or a publish
   * failed and the error reply was attempted. A 1.1.0 client's may have been cut
   * between queueing and starting its one reply.
   */
  lemma {:induction false} CompletedMeansAnswered(t: Turns, w: nat)
    requires TurnReachable(t) && w < |t.handling.ledger.messages|
    requires
      var m := t.handling.ledger.messages[w];
      m.delivery.replyTo && Completed in m.calls
    ensures w < |t.handling.server.works| && Guarantees.WasAnswered(t.handling.server, w)
    ensures
      var s := t.handling.server;
      var p := s.streams[s.works[w].stream.value].pipeline;
      Replies.Answered(p) || (p.single && Replies.FirstReplySkipped(p))
  {
    TurnReachableInv(t);
    var h := t.handling;
    assert Ledger.Balanced(h.ledger.checks, h.ledger.messages[w]);
    assert Agrees(h.server.works[w], h.ledger.messages[w]);
    hide Server.StreamOk;
    hide ResponseOk;
    Guarantees.SucceededWasAnswered(h.server, w);
    assert Server.WorkOk(h.server, w);
    ResolvedWasAnswered(h.server.streams[h.server.works[w].stream.value], t.phase);
  }

  lemma {:induction false} ResolvedWasAnswered(x: Server.Stream, phase: Loop.Phase)
    requires ResponseOk(x, phase) && Server.Resolved(x)
    ensures !x.pipeline.single ==> Replies.Answered(x.pipeline)
  {
    if !x.pipeline.single { Loop.InvIsAnswered(Loop.Loop(x.pipeline, phase)); }
    hide Loop.LoopInv;
  }
}
