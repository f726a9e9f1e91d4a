/**
 * `sendReply()` in the turns of Node's event loop. A turn is one callback (a
 * timer, I/O); then the whole queue of `process.nextTick` runs, then every promise
 * callback that is due, and these two again until both queues are empty. `close()`
 * gives up in the promise callbacks that follow its timer. Whether a request can
 * then be completed unanswered, exactly.
 */
module ReplyEventLoop {
  import opened Values
  import opened ReplyCodec
  import opened ReplyPipeline
  import opened ReplyGuarantees

  /** `timer`: right after the timer of `close()`, whose own callback only resolves a promise. */
  datatype Phase = Callback | Ticks | Promises(timer: bool)

  /** Whether a callback of `process.nextTick` of the response is queued. */
  predicate TickDue(p: Pipeline) {
    Enabled(p, Flush) || Enabled(p, EndTick)
  }

  /** Whether a promise callback of the response is due that waits for nothing else. */
  predicate PromiseDue(p: Pipeline) {
    Enabled(p, StartJob) || Enabled(p, AwaitEnded) || Enabled(p, Return)
  }

  /** Where in a turn a step runs. A source may emit anywhere, the give-up's own promise callbacks included. */
  predicate RunsIn(phase: Phase, step: Step) {
    match step
    case Emit(_) => true
    case Flush => phase.Ticks?
    case EndTick => phase.Ticks?
    case Cut => phase == Promises(true)
    case _ => phase.Promises?
  }

  /** A phase is over once its queue is empty. A new callback, or the timer, waits for both queues. */
  predicate Follows(from: Phase, to: Phase, tickDue: bool, promiseDue: bool) {
    match from
    case Callback => to.Ticks?
    case Ticks => to == Promises(false) && !tickDue
    case Promises(_) => !promiseDue && (to.Ticks? || (!tickDue && to != Promises(false)))
  }

  datatype Loop = Loop(p: Pipeline, phase: Phase)

  datatype LoopStep = Moves(step: Step) | Goes(to: Phase)

  predicate LoopEnabled(l: Loop, step: LoopStep) {
    match step
    case Moves(s) => Enabled(l.p, s) && RunsIn(l.phase, s)
    case Goes(to) => Follows(l.phase, to, TickDue(l.p), PromiseDue(l.p))
  }

  function LoopApply(l: Loop, step: LoopStep): Loop
    requires LoopEnabled(l, step)
  {
    match step
    case Moves(s) => l.(p := Apply(l.p, s))
    case Goes(to) => l.(phase := to)
  }

  predicate LoopLegal(l: Loop, steps: seq<LoopStep>)
    decreases |steps|
  {
    steps == [] || (LoopEnabled(l, steps[0]) && LoopLegal(LoopApply(l, steps[0]), steps[1..]))
  }

  function LoopExec(l: Loop, steps: seq<LoopStep>): Loop
    requires LoopLegal(l, steps)
    decreases |steps|
  {
    if steps == [] then l else LoopExec(LoopApply(l, steps[0]), steps[1..])
  }

  /** A response subscribed at any moment of a turn. */
  function Subscribed(id: string, single: bool, phase: Phase): Loop {
    Loop(Start(id, single), phase)
  }

  /** The response's own part of a run. */
  function Own(steps: seq<LoopStep>): seq<Step> {
    if steps == [] then []
    else if steps[0].Moves? then [steps[0].step] + Own(steps[1..])
    else Own(steps[1..])
  }

  /** The turns only order the steps: what is left of a run without them is a run of `sendReply()`. */
  lemma {:induction false} TurnsOnlyOrder(l: Loop, steps: seq<LoopStep>)
    requires LoopLegal(l, steps)
    ensures Legal(l.p, Own(steps)) && Exec(l.p, Own(steps)) == LoopExec(l, steps).p
    decreases |steps|
  {
    hide Apply;
    hide Enabled;
    if steps != [] {
      TurnsOnlyOrder(LoopApply(l, steps[0]), steps[1..]);
      if steps[0].Moves? { LegalCons(l.p, steps[0].step, Own(steps[1..])); }
    }
  }

  // -------------------------------------------------------------- invariant

  /** The first reply of the response is queued, and its job has not started. */
  predicate FirstJobDue(p: Pipeline) {
    p.wire.publishes == 0 && Enabled(p, StartJob)
  }

  /**
   * A response cut before anything was published had nothing queued, until its
   * call rejected, which it does before the promise callbacks are over.
   */
  ghost predicate CutIsClean(p: Pipeline, phase: Phase) {
    p.stream.cancelledByClose && p.wire.publishes == 0 ==>
      || p.ending.outcome == Some(CancelledByClose)
      || (phase.Promises? && p.ending.outcome.None? && p.source.scheduled == [])
  }

  /** The replies of a 1.2.0 client's response are queued by a tick's callback: none just after the timer. */
  ghost predicate NoneQueuedByTimer(p: Pipeline, phase: Phase) {
    phase == Promises(true) && !p.single ==> !FirstJobDue(p)
  }

  /** `close()` does not cut the response with its first reply queued and not started. */
  predicate CutsCleanly(p: Pipeline, step: Step) {
    step.Cut? ==> p.stream.stopped || !FirstJobDue(p)
  }

  lemma {:induction false} MoveIsClean(p: Pipeline, phase: Phase, step: Step)
    requires Sound(p) && CutIsClean(p, phase) && Enabled(p, step) && RunsIn(phase, step) && CutsCleanly(p, step)
    ensures CutIsClean(Apply(p, step), phase)
  {
    hide SourceInv;
    hide WireInv;
    hide EmitIn;
    hide ToMessage;
    if step.Cut? && !p.stream.stopped && p.wire.publishes == 0 { NothingScheduled(p); }
  }

  /** With nothing published and no job due, nothing was ever queued, and the call has not settled. */
  lemma {:induction false} NothingScheduled(p: Pipeline)
    requires Sound(p) && !p.stream.stopped && p.wire.publishes == 0 && !FirstJobDue(p)
    ensures p.source.scheduled == [] && p.ending.outcome.None?
  {
    hide SourceInv;
    hide WireInv;
    assert p.chain.job.Idle?;
    assert p.chain.settled == 0;
    assert p.ending.outcome != Some(Resolved) && p.ending.outcome != Some(CancelledByClose);
    OutcomeCases(p.ending.outcome);
  }

  lemma {:induction false} OutcomeCases(outcome: Option<ReplyOutcome>)
    ensures outcome.None? || outcome == Some(Resolved) || outcome == Some(CancelledByClose)
  {
    if outcome.Some? { assert outcome.value.Resolved? || outcome.value.CancelledByClose?; }
  }

  /** Before the promise callbacks are over, the call of a response that is cut has rejected. */
  lemma {:induction false} PhaseIsClean(p: Pipeline, from: Phase, to: Phase, tickDue: bool, promiseDue: bool)
    requires Sound(p) && CutIsClean(p, from) && Follows(from, to, tickDue, promiseDue)
    requires PromiseDue(p) ==> promiseDue
    ensures CutIsClean(p, to) && NoneQueuedByTimer(p, to)
  {
    hide SourceInv;
    hide WireInv;
  }

  /** A 1.2.0 client's replies are queued by a tick's callback only, and each job after the first is not the first. */
  lemma {:induction false} MoveQueuesNone(p: Pipeline, phase: Phase, step: Step)
    requires Sound(p) && NoneQueuedByTimer(p, phase) && Enabled(p, step) && RunsIn(phase, step)
    ensures NoneQueuedByTimer(Apply(p, step), phase)
  {
    hide SourceInv;
    hide WireInv;
    hide ToMessage;
    hide Schedule;
    hide PacketOf;
  }

  ghost predicate LoopInv(l: Loop) {
    Sound(l.p) && CutIsClean(l.p, l.phase) && NoneQueuedByTimer(l.p, l.phase)
  }

  lemma {:induction false} MoveIsSound(p: Pipeline, step: Step)
    requires Sound(p) && Enabled(p, step)
    ensures Sound(Apply(p, step))
  {
    StepInv(p, step);
    StepAck(p, step);
    StepOutcome(p, step);
    hide Inv;
    hide AckInv;
    hide OutcomeInv;
    hide Apply;
    hide Enabled;
  }

  lemma {:induction false} LoopStepKeeps(l: Loop, step: LoopStep)
    requires LoopInv(l) && LoopEnabled(l, step) && (step.Moves? ==> CutsCleanly(l.p, step.step))
    ensures LoopInv(LoopApply(l, step))
  {
    hide Sound;
    hide CutIsClean;
    hide NoneQueuedByTimer;
    hide CutsCleanly;
    match step {
      case Moves(s) =>
        MoveIsSound(l.p, s);
        MoveIsClean(l.p, l.phase, s);
        MoveQueuesNone(l.p, l.phase, s);
      case Goes(to) => PhaseIsClean(l.p, l.phase, to, TickDue(l.p), PromiseDue(l.p));
    }
    hide Apply;
    hide Enabled;
  }

  /** The call did not resolve unless its client was answered. */
  ghost predicate AnsweredIfResolved(p: Pipeline) {
    p.ending.outcome == Some(Resolved) ==> Answered(p)
  }

  lemma {:induction false} CleanIsAnswered(p: Pipeline, phase: Phase)
    requires Sound(p) && CutIsClean(p, phase)
    ensures AnsweredIfResolved(p)
  {
    hide Inv;
    hide AckInv;
  }

  /** A cut finds the first job of a response due only if its client is a 1.1.0 one. */
  lemma {:induction false} CutOfNewClient(p: Pipeline, phase: Phase, step: Step)
    requires NoneQueuedByTimer(p, phase) && RunsIn(phase, step) && (!p.single || p.stream.stopped)
    ensures CutsCleanly(p, step)
  {
    hide Enabled;
  }

  lemma {:induction false} StaysSo(p: Pipeline, step: Step)
    requires Enabled(p, step)
    ensures Apply(p, step).single == p.single && (p.stream.stopped ==> Apply(p, step).stream.stopped)
  {
    hide EmitIn;
    hide Delivered;
  }

  /** Every run of a 1.2.0 client's response, or of one that is stopped. */
  lemma {:induction false} LoopRunKeeps(l: Loop, steps: seq<LoopStep>)
    requires LoopInv(l) && LoopLegal(l, steps) && (!l.p.single || l.p.stream.stopped)
    ensures LoopInv(LoopExec(l, steps))
    decreases |steps|
  {
    if steps != [] {
      if steps[0].Moves? {
        CutOfNewClient(l.p, l.phase, steps[0].step);
        StaysSo(l.p, steps[0].step);
      }
      LoopStepKeeps(l, steps[0]);
      hide LoopInv;
      hide Apply;
      hide Enabled;
      LoopRunKeeps(LoopApply(l, steps[0]), steps[1..]);
    }
  }

  lemma {:induction false} SubscribedInv(id: string, single: bool, phase: Phase)
    ensures LoopInv(Subscribed(id, single, phase))
  {
    StartAck(id, single);
    hide Inv;
    hide AckInv;
  }

  // -------------------------------------------------------------- guarantees

  /**
   * Whenever it is subscribed and however the turns go, `sendReply()` of a 1.2.0
   * client's request resolves only if the client was answered: the promise that a
   * request without a reply is not completed holds.
   */
  lemma {:induction false} NeverUnanswered(id: string, phase: Phase, steps: seq<LoopStep>)
    requires LoopLegal(Subscribed(id, false, phase), steps)
    ensures AnsweredIfResolved(LoopExec(Subscribed(id, false, phase), steps).p)
  {
    var l := Subscribed(id, false, phase);
    SubscribedInv(id, false, phase);
    LoopRunKeeps(l, steps);
    CleanIsAnswered(LoopExec(l, steps).p, LoopExec(l, steps).phase);
    hide *;
  }

  /** Whether some run in turns reaches `l`. */
  ghost predicate LoopReachable(l: Loop) {
    exists phase, steps ::
      && LoopLegal(Subscribed(l.p.id, l.p.single, phase), steps)
      && LoopExec(Subscribed(l.p.id, l.p.single, phase), steps) == l
  }

  /** Some run in turns goes on from `l` to resolve the call unanswered. */
  ghost predicate CanGoUnanswered(l: Loop) {
    exists steps :: LoopLegal(l, steps) && !AnsweredIfResolved(LoopExec(l, steps).p)
  }

  /**
   * The exact condition, for both kinds of client: a cut lets the request be
   * completed unanswered if and only if it finds the first reply queued and its
   * job not started; and the turns allow that for a 1.1.0 client's only, whose
   * reply is queued by the emission itself.
   */
  lemma {:induction false} UnansweredExactly(l: Loop)
    requires LoopReachable(l) && LoopEnabled(l, Moves(Cut)) && !l.p.stream.stopped && l.p.ending.outcome.None?
    ensures CanGoUnanswered(LoopApply(l, Moves(Cut))) <==> FirstJobDue(l.p)
    ensures FirstJobDue(l.p) ==> l.p.single
  {
    UncutInv(l);
    if FirstJobDue(l.p) {
      SkippedByCut(l);
    } else {
      CleanCutIsAnswered(l);
    }
    hide *;
  }

  /** As long as it is not cut, a response of either client satisfies the invariant. */
  lemma {:induction false} UncutInv(l: Loop)
    requires LoopReachable(l) && !l.p.stream.stopped
    ensures LoopInv(l) && (l.phase == Promises(true) && FirstJobDue(l.p) ==> l.p.single)
  {
    var phase, steps :|
      && LoopLegal(Subscribed(l.p.id, l.p.single, phase), steps)
      && LoopExec(Subscribed(l.p.id, l.p.single, phase), steps) == l;
    SubscribedInv(l.p.id, l.p.single, phase);
    UncutRun(Subscribed(l.p.id, l.p.single, phase), steps);
    hide LoopExec;
    hide LoopLegal;
    hide Sound;
    hide Enabled;
  }

  lemma {:induction false} UncutRun(l: Loop, steps: seq<LoopStep>)
    requires LoopInv(l) && LoopLegal(l, steps) && !LoopExec(l, steps).p.stream.stopped
    ensures LoopInv(LoopExec(l, steps)) && !l.p.stream.stopped
    decreases |steps|
  {
    if steps != [] {
      UncutBefore(LoopApply(l, steps[0]), steps[1..]);
      if steps[0].Moves? { NotCut(l.p, steps[0].step); }
      LoopStepKeeps(l, steps[0]);
      hide LoopInv;
      hide LoopApply;
      hide LoopEnabled;
      UncutRun(LoopApply(l, steps[0]), steps[1..]);
    }
  }

  lemma {:induction false} UncutBefore(l: Loop, steps: seq<LoopStep>)
    requires LoopLegal(l, steps) && !LoopExec(l, steps).p.stream.stopped
    ensures !l.p.stream.stopped
    decreases |steps|
  {
    if steps != [] {
      UncutBefore(LoopApply(l, steps[0]), steps[1..]);
      if steps[0].Moves? { StaysSo(l.p, steps[0].step); }
      hide Apply;
      hide Enabled;
    }
  }

  lemma {:induction false} NotCut(p: Pipeline, step: Step)
    requires Enabled(p, step) && !Apply(p, step).stream.stopped
    ensures !step.Cut? && !p.stream.stopped
  {
    StaysSo(p, step);
  }

  lemma {:induction false} CleanCutIsAnswered(l: Loop)
    requires LoopInv(l) && LoopEnabled(l, Moves(Cut)) && !FirstJobDue(l.p)
    ensures !CanGoUnanswered(LoopApply(l, Moves(Cut)))
  {
    var cut := LoopApply(l, Moves(Cut));
    LoopStepKeeps(l, Moves(Cut));
    assert cut.p.stream.stopped;
    hide LoopInv;
    forall steps | LoopLegal(cut, steps) ensures AnsweredIfResolved(LoopExec(cut, steps).p) {
      LoopRunKeeps(cut, steps);
      InvIsAnswered(LoopExec(cut, steps));
    }
    hide AnsweredIfResolved;
  }

  lemma {:induction false} InvIsAnswered(l: Loop)
    requires LoopInv(l)
    ensures AnsweredIfResolved(l.p)
  {
    CleanIsAnswered(l.p, l.phase);
  }

  lemma {:induction false} LoopCons(l: Loop, step: LoopStep, rest: seq<LoopStep>)
    requires LoopEnabled(l, step) && LoopLegal(LoopApply(l, step), rest)
    ensures LoopLegal(l, [step] + rest) && LoopExec(l, [step] + rest) == LoopExec(LoopApply(l, step), rest)
  {
    hide LoopEnabled;
    hide LoopApply;
    assert ([step] + rest)[1..] == rest;
  }

  /** The job is skipped and the call returns, in the promise callbacks of the cut. */
  lemma {:induction false} SkippedByCut(l: Loop)
    requires LoopInv(l) && LoopEnabled(l, Moves(Cut)) && !l.p.stream.stopped && l.p.ending.outcome.None?
    requires FirstJobDue(l.p)
    ensures CanGoUnanswered(LoopApply(l, Moves(Cut)))
  {
    var cut := LoopApply(l, Moves(Cut));
    SkippedInPhase(cut);
    assert !AnsweredIfResolved(LoopExec(cut, [Moves(StartJob), Moves(Return)]).p);
    hide *;
  }

  lemma {:induction false} SkippedInPhase(l: Loop)
    requires Sound(l.p) && l.phase.Promises? && l.p.stream.cancelledByClose && l.p.stream.stopped
    requires l.p.ending.outcome.None? && FirstJobDue(l.p)
    ensures LoopLegal(l, [Moves(StartJob), Moves(Return)])
    ensures !AnsweredIfResolved(LoopExec(l, [Moves(StartJob), Moves(Return)]).p)
  {
    hide SourceInv;
    hide WireInv;
    var skipped := LoopApply(l, Moves(StartJob));
    LoopCons(skipped, Moves(Return), []);
    LoopCons(l, Moves(StartJob), [Moves(Return)]);
    assert [Moves(StartJob)] + [Moves(Return)] == [Moves(StartJob), Moves(Return)];
  }

  // ----------------------------------------------------------- two such runs

  /** What is queued when a value and the completion were emitted together. */
  predicate OneValueQueued(p: Pipeline, id: string, v: Js) {
    && p.source.batch == [Packet(None, Some(v), true)] && p.source.scheduled == [] && p.ending.queued
    && p == Start(id, false).(source := p.source, ending := p.ending) && p.ending == Ending(true, false, None, None)
  }

  /** From there, the tick's two callbacks run, then the first job. */
  lemma {:induction false} OneValueFlushed(l: Loop, id: string, v: Js) returns (steps: seq<LoopStep>)
    requires OneValueQueued(l.p, id, v) && l.phase.Ticks?
    ensures LoopLegal(l, steps) && Own(steps) == [Flush, EndTick, StartJob]
    ensures
      var p := LoopExec(l, steps).p;
      && p.source.scheduled == [Packet(None, Some(v), true)] && p.chain.job.Publishing?
      && p.ending.ended && p.wire.publishes == 1
  {
    var l1 := LoopApply(l, Moves(Flush));
    var l2 := LoopApply(l1, Moves(EndTick));
    var l3 := LoopApply(l2, Goes(Promises(false)));
    var l4 := LoopApply(l3, Moves(StartJob));
    hide Apply;
    hide Enabled;
    LoopCons(l3, Moves(StartJob), []);
    steps := AndBefore(l2, Goes(Promises(false)), [Moves(StartJob)]);
    steps := AndBefore(l1, Moves(EndTick), steps);
    steps := AndBefore(l, Moves(Flush), steps);
  }

  /** An ordinary response: its value and its completion, emitted together, up to the publish of its one reply. */
  lemma {:induction false} OneValueRun(id: string, v: Js) returns (steps: seq<LoopStep>)
    ensures LoopLegal(Subscribed(id, false, Callback), steps)
    ensures
      var p := LoopExec(Subscribed(id, false, Callback), steps).p;
      && p.source.scheduled == [Packet(None, Some(v), true)] && p.chain.job.Publishing?
      && p.ending.ended && p.wire.publishes == 1
    ensures Own(steps) == [Emit(Next(v)), Emit(Complete), Flush, EndTick, StartJob]
  {
    var l0 := Subscribed(id, false, Callback);
    var l1 := LoopApply(l0, Moves(Emit(Next(v))));
    var l2 := LoopApply(l1, Moves(Emit(Complete)));
    var l3 := LoopApply(l2, Goes(Ticks));
    assert OneValueQueued(l3.p, id, v);
    hide *;
    steps := OneValueFlushed(l3, id, v);
    steps := AndBefore(l2, Goes(Ticks), steps);
    steps := AndBefore(l1, Moves(Emit(Complete)), steps);
    steps := AndBefore(l0, Moves(Emit(Next(v))), steps);
  }

  lemma {:induction false} AndBefore(l: Loop, step: LoopStep, rest: seq<LoopStep>) returns (steps: seq<LoopStep>)
    requires LoopEnabled(l, step) && LoopLegal(LoopApply(l, step), rest)
    ensures LoopLegal(l, steps) && LoopExec(l, steps) == LoopExec(LoopApply(l, step), rest)
    ensures Own(steps) == (if step.Moves? then [step.step] else []) + Own(rest)
  {
    steps := [step] + rest;
    LoopCons(l, step, rest);
    assert steps[1..] == rest;
  }

  /** A 1.1.0 client whose source emits just ahead of its cut: its request is completed unanswered. */
  lemma {:induction false} OldClientUnanswered(id: string, v: Js) returns (l: Loop)
    ensures LoopReachable(l) && LoopEnabled(l, Moves(Cut)) && CanGoUnanswered(LoopApply(l, Moves(Cut)))
  {
    var l0 := Subscribed(id, true, Promises(true));
    var emit := Moves(Emit(Next(v)));
    l := LoopApply(l0, emit);
    LoopCons(l0, emit, []);
    SubscribedInv(id, true, Promises(true));
    LoopStepKeeps(l0, emit);
    assert l.p.id == id && l.p.single && LoopExec(l0, [emit] + []) == l;
    assert FirstJobDue(l.p) && !l.p.stream.stopped && l.p.ending.outcome.None?;
    hide LoopInv;
    hide Apply;
    hide Enabled;
    UnansweredExactly(l);
  }
}
