/** What every run of `sendReply()` guarantees, whatever the order of its steps. */
module ReplyGuarantees {
  import opened Values
  import opened ReplyCodec
  import opened ReplyPipeline

  // -------------------------------------------- what the reply queue receives

  /**
   * The messages on the reply queue are a prefix of the scheduled replies, then
   * at most one generic error reply, which only a failed publish brings and a
   * 1.1.0 client never gets.
   */
  lemma {:induction false} WireIsPrefix(id: string, single: bool, steps: seq<Step>)
    requires Legal(Start(id, single), steps)
    ensures
      var p := Exec(Start(id, single), steps);
      && p.wire.sent <= |p.source.scheduled|
      && p.wire.messages == Messages(id, p.source.scheduled[..p.wire.sent]) + ErrorReplies(id, p.wire)
      && (p.wire.errorSent ==> p.chain.failed && !single)
  {
    StartInv(id, single);
    RunInv(Start(id, single), steps);
  }

  ghost predicate NothingAfterEnd(messages: seq<Message>) {
    forall i :: 0 <= i < |messages| - 1 ==> !messages[i].isDisposed
  }

  /**
   * Nothing follows the end of the response, so at most one message is marked
   * as the last, except in one case: the end went out, its sender failed to
   * close, and the error reply sent in its place went out too.
   */
  lemma {:induction false} NothingFollowsEnd(id: string, single: bool, steps: seq<Step>)
    requires Legal(Start(id, single), steps)
    ensures
      var p := Exec(Start(id, single), steps);
      NothingAfterEnd(p.wire.messages) <==> !(p.wire.endNotClosed && p.wire.errorSent)
  {
    StartInv(id, single);
    RunInv(Start(id, single), steps);
    NothingFollowsEndIn(Exec(Start(id, single), steps));
    hide *;
  }

  lemma {:induction false} NothingFollowsEndIn(p: Pipeline)
    requires Inv(p)
    ensures NothingAfterEnd(p.wire.messages) <==> !(p.wire.endNotClosed && p.wire.errorSent)
  {
    OnlyLastDisposed(p.single, p.source);
    hide SourceInv;
    hide EndInv;
    hide Encodes;
    hide ChainInv;
    hide Messages;
    hide ToMessage;
    var scheduled, sent, ms := p.source.scheduled, p.wire.sent, p.wire.messages;
    assert forall i :: 0 <= i < sent ==> ms[i].isDisposed == scheduled[i].isDisposed by {
      forall i | 0 <= i < sent ensures ms[i].isDisposed == scheduled[i].isDisposed {
        assert ms[i] == ToMessage(p.id, scheduled[i]);
        SameEnd(p.id, scheduled[i]);
      }
    }
    if p.wire.errorSent && p.wire.endNotClosed {
      assert ms[sent - 1].isDisposed && sent - 1 < |ms| - 1;
    }
  }

  lemma {:induction false} SameEnd(id: string, packet: Packet)
    ensures ToMessage(id, packet).isDisposed == packet.isDisposed
  {
  }

  /** The exception happens: a run where an error reply follows the end. */
  lemma {:induction false} ErrorReplyCanFollowEnd(id: string)
    ensures
      var steps := [Emit(Complete), Flush, StartJob, PublishSettles(SentNotClosed), ErrorSettles(Sent)];
      && Legal(Start(id, false), steps)
      && !NothingAfterEnd(Exec(Start(id, false), steps).wire.messages)
  {
    var p0 := Start(id, false);
    var s1, s2, s3, s4, s5 := Emit(Complete), Flush, StartJob, PublishSettles(SentNotClosed), ErrorSettles(Sent);
    var p1 := Apply(p0, s1);
    var p2 := Apply(p1, s2);
    var p3 := Apply(p2, s3);
    var p4 := Apply(p3, s4);
    var p5 := Apply(p4, s5);
    LegalCons(p4, s5, []);
    LegalCons(p3, s4, [s5]);
    LegalCons(p2, s3, [s4, s5]);
    LegalCons(p1, s2, [s3, s4, s5]);
    LegalCons(p0, s1, [s2, s3, s4, s5]);
    assert p5.wire.messages[0].isDisposed && |p5.wire.messages| == 2;
  }

  lemma {:induction false} LegalCons(p: Pipeline, step: Step, rest: seq<Step>)
    requires Enabled(p, step) && Legal(Apply(p, step), rest)
    ensures Legal(p, [step] + rest) && Exec(p, [step] + rest) == Exec(Apply(p, step), rest)
  {
    assert ([step] + rest)[1..] == rest;
  }

  // ------------------------------------------------------ what the client sees

  /** The end the client is told of when the response was cut by a failed publish. */
  function WithErrorReply(before: seq<Event>, errorSent: bool): seq<Event> {
    if errorSent && !Terminated(before) then before + [Error(InternalServerError)] else before
  }

  /**
   * A 1.2.0 client sees a prefix of the handler's events, then the generic
   * error if the error reply went out before an end; and exactly the handler's
   * events, end included, once the response finished without being stopped.
   */
  lemma {:induction false} ClientSees(id: string, steps: seq<Step>)
    requires Legal(Start(id, false), steps)
    ensures
      exists before :: ClientView(Exec(Start(id, false), steps), before)
  {
    StartInv(id, false);
    RunInv(Start(id, false), steps);
    hide Legal;
    hide Exec;
    ClientSeesState(Exec(Start(id, false), steps));
  }

  /** `before`: what the client sees of the handler's own events. */
  ghost predicate ClientView(p: Pipeline, before: seq<Event>) {
    && before <= SeenAll(Events(p.source))
    && Observe(p.wire.messages) == WithErrorReply(before, p.wire.errorSent)
    && (Finished(p) && !p.stream.stopped ==>
          Observe(p.wire.messages) == SeenAll(Events(p.source)) && Terminated(Events(p.source)))
  }

  lemma {:induction false} ClientSeesState(p: Pipeline)
    requires Inv(p) && !p.single
    ensures p.wire.sent <= |p.source.scheduled|
    ensures ClientView(p, Observe(Messages(p.id, p.source.scheduled[..p.wire.sent])))
  {
    hide Observe;
    hide Messages;
    hide Encodes;
    hide Flatten;
    hide SeenAll;
    hide SourceInv;
    hide ChainInv;
    hide EndInv;
    var s, before := p.source, Messages(p.id, p.source.scheduled[..p.wire.sent]);
    OnlyLastDisposed(false, s);
    ObserveErrorReply(p.id, before);
    ObservePrefix(p.id, s.scheduled, Flatten(s.ticks), p.wire.sent);
    SeenPrefix(Flatten(s.ticks), s.tick);
    if Finished(p) && !p.stream.stopped {
      FinishedSendsAll(p);
      assert s.scheduled[..p.wire.sent] == s.scheduled;
    }
    if !p.wire.errorSent { assert p.wire.messages == before; }
  }

  lemma {:induction false} FinishedSendsAll(p: Pipeline)
    requires Inv(p) && !p.single && Finished(p) && !p.stream.stopped
    ensures p.wire.sent == |p.source.scheduled| && !p.wire.errorSent
    ensures Events(p.source) == Flatten(p.source.ticks) && Terminated(Events(p.source))
  {
    EmptyBatch(p.source.tick);
    hide EncodeTicks;
    hide Flatten;
    hide BatchOf;
    hide Messages;
  }

  lemma {:induction false} SeenPrefix(a: seq<Event>, b: seq<Event>)
    ensures SeenAll(a) <= SeenAll(a + b)
  {
  }

  lemma {:induction false} EmptyBatch(tick: seq<Event>)
    requires BatchOf(tick) == []
    ensures tick == []
  {
  }

  /** The error reply ends the client's Observable, unless it had ended already. */
  lemma {:induction false} ObserveErrorReply(id: string, messages: seq<Message>)
    ensures Observe(messages + [ToMessage(id, GENERIC_ERROR)])
      == WithErrorReply(Observe(messages), true)
  {
    DecodeToMessage(id, GENERIC_ERROR);
    assert (messages + [ToMessage(id, GENERIC_ERROR)])[..|messages|] == messages;
  }

  /**
   * A 1.1.0 client gets at most one message, marked as the end, that carries
   * the first event of the response: its value, its error, or its empty end.
   */
  lemma {:induction false} SingleReplyClient(id: string, steps: seq<Step>)
    requires Legal(Start(id, true), steps)
    ensures
      var p := Exec(Start(id, true), steps);
      && |p.wire.messages| <= 1
      && (p.wire.messages != [] ==>
            && Events(p.source) != []
            && p.wire.messages[0] == ToMessage(id, PacketOf(Events(p.source)[0]).(isDisposed := true)))
      && !p.wire.errorTried
      && (Finished(p) && !p.stream.stopped ==> |p.wire.messages| == 1)
  {
    StartInv(id, true);
    RunInv(Start(id, true), steps);
    hide Legal;
    hide Exec;
    var p := Exec(Start(id, true), steps);
    assert Flatten([]) == [];
    assert Events(p.source) == p.source.tick;
  }

  // -------------------------------------------------- publishing and the cut

  /** At most one publish is in flight: a job starts only when the one before is over. */
  predicate PublishInFlight(p: Pipeline) {
    !p.chain.job.Idle?
  }

  /** How publishes, acknowledgements and the reply flag go together. */
  ghost predicate AckInv(p: Pipeline) {
    var c, s, w := p.chain, p.stream, p.wire;
    && (c.settled > 0 && !s.stopped ==> w.acked)
    && (c.settled > 0 && !c.job.Idle? ==> w.acked)
    && (w.acked || c.failed || !c.job.Idle? ==> w.publishes > 0)
    && (w.publishes > 0 ==> w.acked || c.failed || c.job.Publishing?)
    && (s.replied && !w.acked ==>
          || (c.failed && !s.cancelledByClose && !c.job.Replacing?)
          || (s.cancelledByClose && w.publishes == 0))
    && (c.settled > 0 && w.publishes == 0 ==> s.cancelledByClose)
    && (c.failed && s.cancelledByClose ==> c.cancelled)
    && (s.stopped && !s.cancelledByClose ==> c.failed)
    && (c.settled > 0 && !c.cancelled ==> s.replied)
    && (p.ending.awaited.Some? && !c.job.Idle? ==> p.ending.awaited.value >= c.started)
  }

  lemma {:induction false} StepAck(p: Pipeline, step: Step)
    requires Inv(p) && AckInv(p) && Enabled(p, step)
    ensures AckInv(Apply(p, step))
  {
    hide SourceInv;
    hide WireInv;
    hide EmitIn;
    hide ToMessage;
  }

  lemma {:induction false} RunAck(p: Pipeline, steps: seq<Step>)
    requires Inv(p) && AckInv(p) && Legal(p, steps)
    ensures Inv(Exec(p, steps)) && AckInv(Exec(p, steps))
    decreases |steps|
  {
    hide Inv;
    hide AckInv;
    if steps != [] {
      StepInv(p, steps[0]);
      StepAck(p, steps[0]);
      RunAck(Apply(p, steps[0]), steps[1..]);
    }
  }

  lemma {:induction false} StartAck(id: string, single: bool)
    ensures Inv(Start(id, single)) && AckInv(Start(id, single))
  {
  }

  /** Whether `p` is a state some run reaches. */
  ghost predicate Reachable(p: Pipeline) {
    exists steps :: Legal(Start(p.id, p.single), steps) && Exec(Start(p.id, p.single), steps) == p
  }

  lemma {:induction false} ReachableInv(p: Pipeline)
    requires Reachable(p)
    ensures Inv(p) && AckInv(p)
  {
    var steps :| Legal(Start(p.id, p.single), steps) && Exec(Start(p.id, p.single), steps) == p;
    StartAck(p.id, p.single);
    RunAck(Start(p.id, p.single), steps);
  }

  /** Nothing is published any more. */
  predicate Quiet(p: Pipeline) {
    || p.stream.cancelledByClose
    || (p.stream.stopped && p.chain.job.Idle?)
    || (p.source.done && p.source.batch == [] && p.chain.settled >= |p.source.scheduled|)
  }

  lemma {:induction false} StepQuiet(p: Pipeline, step: Step)
    requires Inv(p) && Enabled(p, step) && Quiet(p)
    ensures Quiet(Apply(p, step)) && Apply(p, step).wire.publishes == p.wire.publishes
  {
    hide SourceInv;
    hide WireInv;
    hide EndInv;
    hide EmitIn;
    hide ToMessage;
  }

  /** Once `close()` cut a response, it never starts another publish, error reply included. */
  lemma {:induction false} NoPublishOnceQuiet(p: Pipeline, steps: seq<Step>)
    requires Inv(p) && Quiet(p) && Legal(p, steps)
    ensures Exec(p, steps).wire.publishes == p.wire.publishes
    decreases |steps|
  {
    hide Inv;
    hide Quiet;
    if steps != [] {
      StepInv(p, steps[0]);
      StepQuiet(p, steps[0]);
      NoPublishOnceQuiet(Apply(p, steps[0]), steps[1..]);
    }
  }

  /**
   * When `finished` settles, nothing is in flight and nothing will be published;
   * and every reply of a response nobody stopped has been published, end included.
   */
  lemma {:induction false} FinishedIsDrained(p: Pipeline)
    requires Reachable(p) && Finished(p)
    ensures Drained(p)
  {
    ReachableInv(p);
    FinishedDrains(p);
    hide *;
  }

  ghost predicate Drained(p: Pipeline) {
    && !PublishInFlight(p) && Quiet(p)
    && (!p.stream.stopped ==>
          && p.source.done && p.source.batch == []
          && p.wire.sent == |p.source.scheduled| && p.chain.settled == |p.source.scheduled|)
  }

  lemma {:induction false} FinishedDrains(p: Pipeline)
    requires Inv(p) && AckInv(p) && Finished(p)
    ensures Drained(p)
  {
    hide SourceInv;
    hide WireInv;
  }

  // ---------------------------------------------- the outcome of the request

  /** The client was answered: a reply went out, or its error reply was attempted. */
  ghost predicate Answered(p: Pipeline) {
    || p.wire.acked
    || (p.chain.failed && !p.stream.cancelledByClose && (p.single || p.wire.errorTried))
  }

  /** A cut response that skipped its first reply instead of publishing it. */
  predicate FirstReplySkipped(p: Pipeline) {
    p.stream.cancelledByClose && p.wire.publishes == 0 && p.chain.settled > 0
  }

  /**
   * Reply before completion. `sendReply()` rejects with `CancelledByClose` only
   * when `close()` cut the response before any reply was acknowledged. It
   * resolves only once the client was answered, except exactly when the cut came
   * between queueing the first reply and starting its job.
   */
  lemma {:induction false} ReplyBeforeCompletion(p: Pipeline)
    requires Reachable(p) && Enabled(p, Return)
    ensures ReturnsRightly(p)
  {
    ReachableInv(p);
    ReturnAnswers(p);
    hide *;
  }

  /** What `sendReply()` may resolve or reject with in the state `p`. */
  ghost predicate ReturnsRightly(p: Pipeline)
    requires Enabled(p, Return)
  {
    var outcome := Apply(p, Return).ending.outcome.value;
    && (outcome.CancelledByClose? ==> p.stream.cancelledByClose && !p.wire.acked)
    && (outcome.Resolved? && !Answered(p) <==> FirstReplySkipped(p))
  }

  lemma {:induction false} ReturnAnswers(p: Pipeline)
    requires Inv(p) && AckInv(p) && Enabled(p, Return)
    ensures ReturnsRightly(p)
  {
    if !p.stream.stopped && Finished(p) {
      SomethingScheduled(p.single, p.source);
    }
    hide SourceInv;
  }

  /** The outcome of a call that returned stays right whatever its response does afterwards. */
  ghost predicate OutcomeInv(p: Pipeline) {
    && (p.ending.outcome == Some(Resolved) ==> Answered(p) || FirstReplySkipped(p))
    && (p.ending.outcome == Some(CancelledByClose) ==> p.stream.cancelledByClose)
  }

  /** What every state of a response's run satisfies. */
  ghost predicate Sound(p: Pipeline) {
    Inv(p) && AckInv(p) && OutcomeInv(p)
  }

  lemma {:induction false} StepOutcome(p: Pipeline, step: Step)
    requires Inv(p) && AckInv(p) && OutcomeInv(p) && Enabled(p, step)
    ensures OutcomeInv(Apply(p, step))
  {
    if step.Return? {
      ReturnAnswers(p);
    } else if FirstReplySkipped(p) {
      StepQuiet(p, step);
    }
    hide SourceInv;
    hide WireInv;
    hide EmitIn;
    hide ToMessage;
  }

  lemma {:induction false} RunOutcome(p: Pipeline, steps: seq<Step>)
    requires Inv(p) && AckInv(p) && OutcomeInv(p) && Legal(p, steps)
    ensures OutcomeInv(Exec(p, steps))
    decreases |steps|
  {
    hide Inv;
    hide AckInv;
    hide OutcomeInv;
    if steps != [] {
      StepInv(p, steps[0]);
      StepAck(p, steps[0]);
      StepOutcome(p, steps[0]);
      RunOutcome(Apply(p, steps[0]), steps[1..]);
    }
  }

  /** A response that ended scheduled at least one reply. */
  lemma {:induction false} SomethingScheduled(single: bool, s: Source)
    requires SourceInv(single, s) && s.done && s.batch == []
    ensures s.scheduled != []
  {
    if !single {
      EmptyBatch(s.tick);
      OnlyLastDisposed(single, s);
      assert Events(s) == Flatten(s.ticks);
    }
  }

  /**
   * What decides it, when `close()` cuts: with nothing queued (or something
   * already published), every continuation keeps the promise...
   */
  lemma {:induction false} CutWithNothingQueued(p: Pipeline, steps: seq<Step>)
    requires Reachable(p) && !p.stream.stopped && Enabled(p, Cut)
    requires p.wire.publishes > 0 || (p.source.scheduled == [] && p.source.batch == [])
    requires Legal(Apply(p, Cut), steps)
    ensures !FirstReplySkipped(Exec(Apply(p, Cut), steps))
  {
    ReachableInv(p);
    StepInv(p, Cut);
    NothingQueuedRun(Apply(p, Cut), steps);
  }

  lemma {:induction false} NothingQueuedRun(p: Pipeline, steps: seq<Step>)
    requires Inv(p) && p.stream.cancelledByClose && Legal(p, steps)
    requires p.wire.publishes > 0 || (p.source.scheduled == [] && p.source.batch == [])
    ensures !FirstReplySkipped(Exec(p, steps))
    decreases |steps|
  {
    if steps != [] {
      StepInv(p, steps[0]);
      StepNothingQueued(p, steps[0]);
      hide Inv;
      NothingQueuedRun(Apply(p, steps[0]), steps[1..]);
    }
  }

  lemma {:induction false} StepNothingQueued(p: Pipeline, step: Step)
    requires Inv(p) && p.stream.cancelledByClose && Enabled(p, step)
    requires p.wire.publishes > 0 || (p.source.scheduled == [] && p.source.batch == [])
    ensures
      var q := Apply(p, step);
      && q.stream.cancelledByClose
      && (q.wire.publishes > 0 || (q.source.scheduled == [] && q.source.batch == []))
  {
    hide SourceInv;
    hide WireInv;
    hide EndInv;
  }

  /** ...and with a first reply queued but not started, some continuation breaks it. */
  lemma {:induction false} CutBeforeFirstJob(p: Pipeline) returns (steps: seq<Step>)
    requires Reachable(p) && !p.stream.stopped && Enabled(p, Cut) && p.ending.outcome.None?
    requires p.wire.publishes == 0 && p.source.scheduled != []
    ensures steps == [Cut, StartJob, Return] && Legal(p, steps)
    ensures Exec(p, steps).ending.outcome == Some(Resolved) && !Answered(Exec(p, steps))
  {
    ReachableInv(p);
    SkipRun(Apply(p, Cut));
    LegalCons(p, Cut, [StartJob, Return]);
    steps := [Cut] + [StartJob, Return];
  }

  lemma {:induction false} SkipRun(p: Pipeline)
    requires p.stream.cancelledByClose && p.stream.stopped && !p.chain.cancelled && !p.chain.failed
    requires p.source.scheduled != [] && p.chain.settled == 0 && p.chain.job.Idle?
    requires p.ending.outcome.None? && !p.wire.acked
    ensures Legal(p, [StartJob, Return])
    ensures Exec(p, [StartJob, Return]).ending.outcome == Some(Resolved)
    ensures !Answered(Exec(p, [StartJob, Return]))
  {
    var skipped := Apply(p, StartJob);
    LegalCons(skipped, Return, []);
    LegalCons(p, StartJob, [Return]);
    assert [StartJob] + [Return] == [StartJob, Return];
  }

  // --------------------------------------------------------------- progress

  /** Steps the process itself takes (given that a publish settles one way or the other). */
  predicate Internal(step: Step) {
    !step.Emit? && !step.Cut? && !step.Return?
  }

  function Work(p: Pipeline): int {
    (if p.source.batch == [] then 0 else 1 + 4 * |p.source.batch|)
    + 4 * (|p.source.scheduled| - p.chain.settled)
    - (match p.chain.job case Idle => 0 case Publishing => 1 case Replacing => 2)
    + (if p.ending.ended then 0 else 1)
    + (if p.ending.awaited.None? then 1 else 0)
  }

  lemma {:induction false} WorkIsNatural(p: Pipeline)
    requires Inv(p)
    ensures Work(p) >= 0
  {
    hide SourceInv;
    hide WireInv;
  }

  lemma {:induction false} InternalStepsWork(p: Pipeline, step: Step)
    requires Inv(p) && Enabled(p, step) && Internal(step)
    ensures 0 <= Work(Apply(p, step)) < Work(p)
  {
    StepInv(p, step);
    WorkIsNatural(Apply(p, step));
    hide Inv;
    hide ToMessage;
    match step {
      case StartJob => StartJobWorks(p);
      case PublishSettles(result) => PublishSettlesWorks(p, result);
      case _ =>
    }
    hide StartJobIn;
    hide PublishSettlesIn;
  }

  lemma {:induction false} StartJobWorks(p: Pipeline)
    requires Enabled(p, StartJob)
    ensures Work(StartJobIn(p)) < Work(p)
  {
  }

  lemma {:induction false} PublishSettlesWorks(p: Pipeline, result: PublishResult)
    requires Enabled(p, PublishSettles(result))
    ensures Work(PublishSettlesIn(p, result)) < Work(p)
  {
    hide Delivered;
  }

  /**
   * A response that ended or was stopped cannot hold `close()` for ever: until
   * it is finished an internal step is enabled, and each one uses up work.
   */
  lemma {:induction false} EndedResponseFinishes(p: Pipeline) returns (step: Step)
    requires Reachable(p) && !Finished(p)
    requires p.source.done || p.stream.stopped
    ensures Internal(step) && Enabled(p, step)
    ensures 0 <= Work(Apply(p, step)) < Work(p)
  {
    ReachableInv(p);
    step :=
      if p.source.batch != [] then Flush
      else if p.chain.job.Publishing? then PublishSettles(Sent)
      else if p.chain.job.Replacing? then ErrorSettles(Sent)
      else if p.chain.settled < |p.source.scheduled| then StartJob
      else if !p.ending.ended then EndTick
      else AwaitEnded;
    hide SourceInv;
    hide WireInv;
    InternalStepsWork(p, step);
  }
}
