/** What the server's shutdown keeps and guarantees over every run. */
module ServerGuarantees {
  import opened Values
  import opened Outcomes
  import opened ServerShutdown
  import Pipe = ReplyPipeline
  import Replies = ReplyGuarantees

  // -------------------------------------------------- the invariant, kept

  /** A step that leaves the streams and what is followed alone. */
  lemma {:induction false} WorkMoves(s: Server, t: Server)
    requires Inv(s) && t.generation == s.generation && t.streams == s.streams && t.following == s.following
    requires |s.works| <= |t.works|
    requires forall w :: 0 <= w < |t.works| ==> WorkOk(t, w)
    requires forall w :: w in t.inFlight ==> w < |t.works|
    requires forall w :: 0 <= w < |s.works| ==>
      t.works[w].request == s.works[w].request
      && (s.works[w].generation.Some? ==> t.works[w].generation == s.works[w].generation)
    ensures Inv(t)
  {
    hide Over;
    hide Ceased;
    hide Replies.Sound;
    hide WorkOk;
    forall k | 0 <= k < |t.streams| ensures StreamOk(t, k) {
      assert StreamOk(s, k);
    }
  }

  lemma {:induction false} ArrivalKeeps(s: Server, step: Step)
    requires Inv(s) && (step.Deliver? || step.Reject?)
    ensures Inv(Apply(s, step))
  {
    var t := Apply(s, step);
    hide StreamOk;
    forall w | 0 <= w < |t.works| ensures WorkOk(t, w) {
      if w < |s.works| { assert WorkOk(s, w); }
    }
    WorkMoves(s, t);
  }

  lemma {:induction false} BeginKeeps(s: Server, w: nat)
    requires Inv(s) && Enabled(s, Begin(w))
    ensures Inv(Apply(s, Begin(w)))
  {
    var t := Apply(s, Begin(w));
    hide StreamOk;
    assert WorkOk(s, w);
    forall v | 0 <= v < |t.works| ensures WorkOk(t, v) { assert WorkOk(s, v); }
    WorkMoves(s, t);
  }

  lemma {:induction false} SettlingKeeps(s: Server, w: nat, outcome: Outcome)
    requires Inv(s) && w < |s.works| && !s.works[w].phase.Done?
    requires s.works[w].request && outcome.Succeeded? ==>
      s.works[w].stream.Some? && s.works[w].stream.value < |s.streams|
      && Resolved(s.streams[s.works[w].stream.value])
    ensures Inv(SetPhase(s, w, Settling(outcome)))
  {
    var t := SetPhase(s, w, Settling(outcome));
    hide StreamOk;
    forall v | 0 <= v < |t.works| ensures WorkOk(t, v) { assert WorkOk(s, v); }
    WorkMoves(s, t);
  }

  lemma {:induction false} ResumesKeeps(s: Server, w: nat)
    requires Inv(s) && Enabled(s, Resumes(w))
    ensures Inv(Apply(s, Resumes(w)))
  {
    assert WorkOk(s, w) && StreamOk(s, s.works[w].phase.stream);
    hide Replies.Sound;
    hide Ceased;
    hide Over;
    SettlingKeeps(s, w, OutcomeOf(s.streams[s.works[w].phase.stream]).value);
  }

  lemma {:induction false} SettledKeeps(s: Server, w: nat)
    requires Inv(s) && Enabled(s, Settled(w))
    ensures Inv(Apply(s, Settled(w)))
  {
    var t := Apply(s, Settled(w));
    hide StreamOk;
    forall v | 0 <= v < |t.works| ensures WorkOk(t, v) { assert WorkOk(s, v); }
    WorkMoves(s, t);
  }

  lemma {:induction false} SubscribeKeeps(s: Server, w: nat, correlationId: string, single: bool)
    requires Inv(s) && Enabled(s, ReturnsObservable(w, correlationId, single))
    ensures Inv(Subscribe(s, w, correlationId, single))
  {
    var t := Subscribe(s, w, correlationId, single);
    assert WorkOk(s, w);
    if s.works[w].generation != Some(s.generation) {
      SettlingKeeps(s, w, CancelledByClose);
    } else {
      Replies.StartAck(correlationId, single);
      hide Replies.Sound;
      hide Ceased;
      forall v | 0 <= v < |t.works| ensures WorkOk(t, v) { assert WorkOk(s, v); }
      forall k | 0 <= k < |t.streams| ensures StreamOk(t, k) {
        if k < |s.streams| { assert StreamOk(s, k); }
      }
    }
  }

  /** A stream that moves on, and stays over or ceased once it is. */
  ghost predicate MovesOn(x: Stream, y: Stream) {
    && y.work == x.work && y.generation == x.generation && y.Response? == x.Response?
    && (Over(x) ==> Over(y)) && (Ceased(x) ==> Ceased(y)) && (Resolved(x) ==> Resolved(y))
    && (y.Response? ==> Replies.Sound(y.pipeline))
  }

  lemma {:induction false} PutStreamWork(s: Server, k: nat, y: Stream, w: nat)
    requires Inv(s) && k < |s.streams| && MovesOn(s.streams[k], y) && w < |s.works|
    ensures WorkOk(PutStream(s, k, y), w)
  {
    hide StreamOk;
    hide Over;
    hide Ceased;
    hide Replies.Sound;
    assert WorkOk(s, w);
  }

  lemma {:induction false} PutStreamStream(s: Server, k: nat, y: Stream, j: nat)
    requires Inv(s) && k < |s.streams| && MovesOn(s.streams[k], y) && j < |s.streams|
    ensures StreamOk(PutStream(s, k, y), j)
  {
    hide WorkOk;
    hide Over;
    hide Ceased;
    hide Replies.Sound;
    assert StreamOk(s, j);
  }

  lemma {:induction false} PutStreamKeeps(s: Server, k: nat, y: Stream)
    requires Inv(s) && k < |s.streams| && MovesOn(s.streams[k], y)
    ensures Inv(PutStream(s, k, y))
  {
    var t := PutStream(s, k, y);
    forall w | 0 <= w < |t.works| ensures WorkOk(t, w) { PutStreamWork(s, k, y, w); }
    forall j | 0 <= j < |t.streams| ensures StreamOk(t, j) { PutStreamStream(s, k, y, j); }
    hide WorkOk;
    hide StreamOk;
    hide Over;
    hide Ceased;
    hide Replies.Sound;
  }

  lemma {:induction false} StreamStepKeeps(s: Server, step: Step)
    requires Inv(s) && Enabled(s, step) && (step.ResponseStep? || step.ResultEnds?)
    ensures Inv(Apply(s, step))
  {
    var k := step.stream;
    assert StreamOk(s, k);
    if step.ResponseStep? { ResponseMoves(s.streams[k], step.step); }
    hide Replies.Sound;
    hide Pipe.Apply;
    hide Pipe.Enabled;
    hide Pipe.Finished;
    hide NoMorePublishes;
    if step.ResponseStep? {
      PutStreamKeeps(s, k, s.streams[k].(pipeline := Pipe.Apply(s.streams[k].pipeline, step.step)));
    } else {
      PutStreamKeeps(s, k, s.streams[k].(ended := Some(step.ok)));
    }
  }

  lemma {:induction false} GiveUpKeeps(s: Server)
    requires Inv(s) && Enabled(s, GiveUp)
    ensures Inv(Apply(s, GiveUp))
  {
    var t := Apply(s, GiveUp);
    forall w | 0 <= w < |t.works| ensures WorkOk(t, w) { GivenUpWork(s, w); }
    forall k | 0 <= k < |t.streams| ensures StreamOk(t, k) { GivenUpStream(s, k); }
    hide StreamOk;
    hide WorkOk;
  }

  lemma {:induction false} GivenUpWork(s: Server, w: nat)
    requires Inv(s) && Enabled(s, GiveUp) && w < |s.works|
    ensures WorkOk(Apply(s, GiveUp), w)
  {
    assert WorkOk(s, w);
    if s.works[w].phase.Following? { assert StreamOk(s, s.works[w].phase.stream); }
    hide Replies.Sound;
    hide Ceased;
    hide Over;
  }

  lemma {:induction false} GivenUpStream(s: Server, k: nat)
    requires Inv(s) && Enabled(s, GiveUp) && k < |s.streams|
    ensures StreamOk(Apply(s, GiveUp), k)
  {
    var x := s.streams[k];
    assert StreamOk(s, k);
    if x.Response? { CutResponseCeases(x); }
    hide Replies.Sound;
    hide NoMorePublishes;
  }

  lemma {:induction false} StepKeeps(s: Server, step: Step)
    requires Inv(s) && Enabled(s, step)
    ensures Inv(Apply(s, step))
  {
    hide Inv;
    match step {
      case Deliver(_) => ArrivalKeeps(s, step);
      case Reject => ArrivalKeeps(s, step);
      case Begin(w) => BeginKeeps(s, w);
      case Ends(w, ok) => SettlingKeeps(s, w, if ok then Succeeded else Failed);
      case ReturnsObservable(w, correlationId, single) => SubscribeKeeps(s, w, correlationId, single);
      case ResponseStep(_, _) => StreamStepKeeps(s, step);
      case ResultEnds(_, _) => StreamStepKeeps(s, step);
      case Resumes(w) => ResumesKeeps(s, w);
      case Settled(w) => SettledKeeps(s, w);
      case GiveUp => GiveUpKeeps(s);
    }
  }

  /** Every state of every run satisfies the invariant. */
  lemma {:induction false} ExecKeeps(s: Server, steps: seq<Step>)
    requires Inv(s) && Legal(s, steps)
    ensures Inv(Exec(s, steps))
    decreases |steps|
  {
    hide Inv;
    if steps != [] {
      StepKeeps(s, steps[0]);
      ExecKeeps(Apply(s, steps[0]), steps[1..]);
    }
  }

  ghost predicate Reachable(s: Server) {
    exists steps :: Legal(NewServer(), steps) && Exec(NewServer(), steps) == s
  }

  lemma {:induction false} ReachableInv(s: Server)
    requires Reachable(s)
    ensures Inv(s)
  {
    var steps :| Legal(NewServer(), steps) && Exec(NewServer(), steps) == s;
    assert Inv(NewServer());
    ExecKeeps(NewServer(), steps);
    hide *;
  }

  // ------------------------------------------------------------- guarantees

  /** Every subscribed, unfinished Observable is followed and of the current generation. */
  lemma {:induction false} ActiveIsFollowed(s: Server, k: nat)
    requires Reachable(s) && k < |s.streams| && Active(s.streams[k])
    ensures k in s.following && s.streams[k].generation == s.generation
  {
    ReachableInv(s);
    assert StreamOk(s, k);
    if s.streams[k].Response? { ActiveIsNotFinished(s.streams[k].pipeline); }
  }

  lemma {:induction false} ActiveIsNotFinished(p: Pipe.Pipeline)
    requires Pipe.Inv(p) && !p.stream.stopped && !p.source.done
    ensures !Pipe.Finished(p)
  {
    hide Pipe.SourceInv;
    hide Pipe.WireInv;
    hide Pipe.ChainInv;
  }

  /** A stream that ceased stays so: it never becomes active, never publishes again. */
  ghost predicate StaysCeased(x: Stream, y: Stream) {
    && y.Response? == x.Response? && y.generation == x.generation
    && !Active(y)
    && (x.Response? ==> y.pipeline.wire.publishes == x.pipeline.wire.publishes)
  }

  lemma {:induction false} OldStreamStep(s: Server, step: Step, k: nat)
    requires Inv(s) && Enabled(s, step) && k < |s.streams| && s.streams[k].generation < s.generation
    ensures k < |Apply(s, step).streams| && StaysCeased(s.streams[k], Apply(s, step).streams[k])
    ensures Apply(s, step).generation >= s.generation
  {
    assert StreamOk(s, k);
    if step.ResponseStep? && step.stream == k { ResponseMoves(s.streams[k], step.step); }
    hide Replies.Sound;
    hide Pipe.Apply;
    hide Pipe.Enabled;
    hide NoMorePublishes;
    hide WorkOk;
    hide Pipe.Start;
  }

  lemma {:induction false} OldStreamRun(s: Server, steps: seq<Step>, k: nat)
    requires Inv(s) && Legal(s, steps) && k < |s.streams| && s.streams[k].generation < s.generation
    ensures k < |Exec(s, steps).streams| && StaysCeased(s.streams[k], Exec(s, steps).streams[k])
    decreases |steps|
  {
    hide Inv;
    if steps != [] {
      StepKeeps(s, steps[0]);
      OldStreamStep(s, steps[0], k);
      OldStreamRun(Apply(s, steps[0]), steps[1..], k);
    } else {
      OldStreamNow(s, k);
    }
  }

  lemma {:induction false} OldStreamNow(s: Server, k: nat)
    requires Inv(s) && k < |s.streams| && s.streams[k].generation < s.generation
    ensures StaysCeased(s.streams[k], s.streams[k])
  {
    assert StreamOk(s, k);
  }

  lemma {:induction false} NewStreamStep(s: Server, step: Step)
    requires Enabled(s, step)
    ensures
      var t := Apply(s, step);
      && t.generation >= s.generation && |t.streams| >= |s.streams|
      && (forall k :: 0 <= k < |s.streams| ==> t.streams[k].generation == s.streams[k].generation)
      && (forall k :: |s.streams| <= k < |t.streams| ==> t.streams[k].generation == s.generation)
  {
    hide Pipe.Apply;
    hide Pipe.Enabled;
    hide Pipe.Start;
  }

  lemma {:induction false} NewStreamRun(s: Server, steps: seq<Step>, k: nat, since: nat)
    requires Legal(s, steps) && k < |Exec(s, steps).streams| && since <= s.generation
    requires k < |s.streams| ==> s.streams[k].generation >= since
    ensures Exec(s, steps).streams[k].generation >= since
    decreases |steps|
  {
    if steps != [] {
      NewStreamStep(s, steps[0]);
      hide Apply;
      NewStreamRun(Apply(s, steps[0]), steps[1..], k, since);
    }
  }

  /**
   * Giving up is final. After it, whatever happens: none of the Observables
   * subscribed before is active, and none of their responses publishes anything
   * more; and any Observable subscribed later comes from a handler whose message
   * read the generation after the give-up.
   */
  lemma {:induction false} GiveUpIsFinal(s: Server, t: Server, k: nat)
    requires Reachable(s) && Enabled(s, GiveUp) && LeadsTo(Apply(s, GiveUp), t) && k < |t.streams|
    ensures
      if k < |s.streams| then !Active(t.streams[k]) && SamePublishes(s.streams[k], t.streams[k])
      else ReadAfter(s, t, t.streams[k])
  {
    ReachableInv(s);
    var after := Apply(s, GiveUp);
    var steps :| Legal(after, steps) && Exec(after, steps) == t;
    GiveUpKeeps(s);
    ExecKeeps(after, steps);
    if k < |s.streams| {
      GiveUpPublishesNothing(s, k);
      hide Inv;
      hide Exec;
      OldStreamRun(after, steps, k);
    } else {
      NewStreamRun(after, steps, k, after.generation);
      assert StreamOk(t, k);
    }
    hide Active;
    hide Replies.Sound;
    hide Ceased;
    hide Over;
    hide WorkOk;
  }

  /** Whether some run leads from `s` to `t`. */
  ghost predicate LeadsTo(s: Server, t: Server) {
    exists steps :: Legal(s, steps) && Exec(s, steps) == t
  }

  /** The stream's response, if it is one, published nothing in between. */
  predicate SamePublishes(x: Stream, y: Stream) {
    && y.Response? == x.Response?
    && (x.Response? ==> y.pipeline.wire.publishes == x.pipeline.wire.publishes)
  }

  /** The message of the stream read a generation later than that of `s`. */
  predicate ReadAfter(s: Server, t: Server, x: Stream) {
    x.work < |t.works| && t.works[x.work].generation == Some(x.generation) && s.generation < x.generation
  }

  lemma {:induction false} GiveUpPublishesNothing(s: Server, k: nat)
    requires Inv(s) && Enabled(s, GiveUp) && k < |s.streams|
    ensures
      var x, y := s.streams[k], Apply(s, GiveUp).streams[k];
      && y.Response? == x.Response? && y.generation == x.generation < s.generation + 1
      && (x.Response? ==> y.pipeline.wire.publishes == x.pipeline.wire.publishes)
  {
    assert StreamOk(s, k);
    hide Replies.Sound;
    hide Ceased;
    hide Over;
  }

  /**
   * When the loop of `waitForInFlight()` finds both sets empty, nothing is left:
   * every message was handled to its end, or given up by an earlier `close()`;
   * no Observable is subscribed; and every response not cut sent all its replies.
   */
  lemma {:induction false} NothingPendingIsDrained(s: Server)
    requires Reachable(s) && s.inFlight == {} && s.following == {}
    ensures forall w :: 0 <= w < |s.works| ==> s.works[w].phase.Done? || s.works[w].givenUp
    ensures forall k :: 0 <= k < |s.streams| ==> !Active(s.streams[k])
    ensures forall k :: 0 <= k < |s.streams| && s.streams[k].Response? ==>
      Replies.Drained(s.streams[k].pipeline) || s.streams[k].generation < s.generation
  {
    ReachableInv(s);
    forall w | 0 <= w < |s.works| ensures s.works[w].phase.Done? || s.works[w].givenUp { assert WorkOk(s, w); }
    forall k | 0 <= k < |s.streams| ensures !Active(s.streams[k]) {
      if Active(s.streams[k]) {
        ActiveIsFollowed(s, k);
        assert false;
      }
    }
    forall k | 0 <= k < |s.streams| && s.streams[k].Response? && s.streams[k].generation == s.generation
      ensures Replies.Drained(s.streams[k].pipeline)
    {
      assert StreamOk(s, k);
      Replies.FinishedDrains(s.streams[k].pipeline);
    }
    forall k | 0 <= k < |s.streams| ensures s.streams[k].generation <= s.generation { assert StreamOk(s, k); }
    hide Replies.Drained;
    hide Active;
  }

  /**
   * No gap between the two sets: a request whose message is still being handled
   * is in flight, and one whose message is settled has its response followed
   * until the last reply, unless a `close()` gave up on them.
   */
  lemma {:induction false} RequestStaysPending(s: Server, k: nat)
    requires Reachable(s) && k < |s.streams| && s.streams[k].Response?
    requires s.streams[k].generation == s.generation && !Replies.Drained(s.streams[k].pipeline)
    ensures k in s.following
  {
    ReachableInv(s);
    assert StreamOk(s, k);
    if Pipe.Finished(s.streams[k].pipeline) {
      Replies.FinishedDrains(s.streams[k].pipeline);
    }
  }

  /**
   * A message's handling ends as its Observable did: an event fails exactly when
   * its Observable failed, and is cancelled only when `close()` stopped it first;
   * a request never fails, and is cancelled only when its `sendReply()` was.
   */
  lemma {:induction false} OutcomeIsTheStreams(s: Server, w: nat)
    requires Reachable(s) && Enabled(s, Resumes(w))
    ensures
      var x := s.streams[s.works[w].phase.stream];
      var outcome := Apply(s, Resumes(w)).works[w].phase.outcome;
      && x.work == w && s.works[w].generation == Some(x.generation)
      && (outcome.Failed? <==> x.Result? && x.ended == Some(false))
      && (x.Result? && outcome.CancelledByClose? ==> x.stopped && x.ended.None?)
      && (x.Response? && outcome.CancelledByClose? ==> x.pipeline.ending.outcome == Some(Pipe.CancelledByClose))
  {
    ReachableInv(s);
    hide Replies.Sound;
    hide Ceased;
    hide Over;
    assert WorkOk(s, w);
    assert StreamOk(s, s.works[w].phase.stream);
  }

  /** The request's client was answered, or `close()` cut its response between queueing and starting its first reply. */
  ghost predicate WasAnswered(s: Server, w: nat)
    requires w < |s.works|
  {
    && s.works[w].stream.Some? && s.works[w].stream.value < |s.streams|
    && s.streams[s.works[w].stream.value].Response?
    && var p := s.streams[s.works[w].stream.value].pipeline;
    && s.streams[s.works[w].stream.value].work == w
    && (Replies.Answered(p) || Replies.FirstReplySkipped(p))
  }

  /** In every reachable state, a request whose handling succeeded was answered. */
  lemma {:induction false} SucceededWasAnswered(s: Server, w: nat)
    requires Inv(s) && w < |s.works| && s.works[w].request
    requires s.works[w].phase == Settling(Succeeded) || s.works[w].phase == Done(Succeeded)
    ensures WasAnswered(s, w)
  {
    assert WorkOk(s, w);
    assert StreamOk(s, s.works[w].stream.value);
    hide Pipe.Inv;
    hide Replies.AckInv;
  }
}
