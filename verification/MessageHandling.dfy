/**
 * The handling of the server's messages from their arrival to their settlement:
 * the runs of `ServerShutdown` and `MessageSettlement` side by side, message by
 * message, and what a completed request tells about its client.
 */
module MessageHandling {
  import opened Outcomes
  import opened Values
  import Server = ServerShutdown
  import Guarantees = ServerGuarantees
  import Ledger = MessageSettlement

  datatype Handling = Handling(server: Server.Server, ledger: Ledger.Server)

  datatype Step =
    | Deliver(delivery: Ledger.Delivery, answer: Ledger.Answer)
    | DeserializeFails(message: nat)
    | Deserialized(message: nat, answer: Ledger.Answer)
    | HandlerSettles(message: nat)
    | Moves(step: Server.Step)       // its handler, its Observable, or a give-up
    | Concludes(message: nat)        // processMessage() goes on once its handling ended
    | Forgotten(message: nat)        // its settlement call, if any, is over

  function NothingYet(checks: bool): Handling {
    Handling(Server.NewServer(), Ledger.Server(checks, []))
  }

  /** The handler's own steps, and what becomes of its Observable. */
  predicate IsHandlersStep(h: Handling, step: Server.Step) {
    match step
    case Ends(w, _) => w < |h.ledger.messages| && h.ledger.messages[w].phase.Handling?
    case ReturnsObservable(w, _, _) => w < |h.ledger.messages| && h.ledger.messages[w].phase.Handling?
    case ResponseStep(_, _) => true
    case ResultEnds(_, _) => true
    case Resumes(_) => true
    case GiveUp => true
    case _ => false
  }

  predicate Enabled(h: Handling, step: Step) {
    match step
    case Deliver(_, _) => true
    case DeserializeFails(w) =>
      Ledger.Enabled(h.ledger, Ledger.DeserializeFails(w)) && Server.Enabled(h.server, Server.Ends(w, false))
    case Deserialized(w, answer) =>
      && Ledger.Enabled(h.ledger, Ledger.Deserialized(w, answer)) && w < |h.server.works|
      && (!h.server.works[w].request ==> Server.Enabled(h.server, Server.Begin(w)))
    case HandlerSettles(w) => Ledger.Enabled(h.ledger, Ledger.HandlerSettles(w))
    case Moves(s) => Server.Enabled(h.server, s) && IsHandlersStep(h, s)
    case Concludes(w) =>
      && w < |h.server.works| && h.server.works[w].phase.Settling?
      && Ledger.Enabled(h.ledger, Ledger.HandlerEnds(w, h.server.works[w].phase.outcome))
    case Forgotten(w) =>
      Server.Enabled(h.server, Server.Settled(w)) && w < |h.ledger.messages| && h.ledger.messages[w].phase.Over?
  }

  function Apply(h: Handling, step: Step): Handling
    requires Enabled(h, step)
  {
    match step
    case Deliver(delivery, answer) =>
      var ledger := Ledger.Apply(h.ledger, Ledger.Deliver(delivery, answer));
      var rejected := Ledger.IsRejected(ledger.messages[|h.ledger.messages|]);
      Handling(Server.Apply(h.server, if rejected then Server.Reject else Server.Deliver(delivery.replyTo)), ledger)
    case DeserializeFails(w) =>
      Handling(Server.Apply(h.server, Server.Ends(w, false)), Ledger.Apply(h.ledger, Ledger.DeserializeFails(w)))
    case Deserialized(w, answer) =>
      Handling(if h.server.works[w].request then h.server else Server.Apply(h.server, Server.Begin(w)),
               Ledger.Apply(h.ledger, Ledger.Deserialized(w, answer)))
    case HandlerSettles(w) => h.(ledger := Ledger.Apply(h.ledger, Ledger.HandlerSettles(w)))
    case Moves(s) => h.(server := Server.Apply(h.server, s))
    case Concludes(w) =>
      h.(ledger := Ledger.Apply(h.ledger, Ledger.HandlerEnds(w, h.server.works[w].phase.outcome)))
    case Forgotten(w) => h.(server := Server.Apply(h.server, Server.Settled(w)))
  }

  predicate Legal(h: Handling, steps: seq<Step>)
    decreases |steps|
  {
    steps == [] || (Enabled(h, steps[0]) && Legal(Apply(h, steps[0]), steps[1..]))
  }

  function Exec(h: Handling, steps: seq<Step>): Handling
    requires Legal(h, steps)
    decreases |steps|
  {
    if steps == [] then h else Exec(Apply(h, steps[0]), steps[1..])
  }

  // -------------------------------------------------------------- invariant

  /** Both machines agree on what the message is and how its handling ended. */
  predicate Agrees(work: Server.Work, m: Ledger.Message) {
    && work.request == m.delivery.replyTo
    && (m.outcome.Some? ==>
          work.phase == Server.Settling(m.outcome.value) || work.phase == Server.Done(m.outcome.value))
    && (work.phase.Done? ==> m.outcome.Some?)
    && (work.phase.Following? ==> m.phase.Handling?)
    && (work.phase.Settling? && m.outcome.None? ==> m.phase.Handling? && !work.phase.outcome.Rejected?)
  }

  ghost predicate Inv(h: Handling) {
    && Server.Inv(h.server)
    && (forall i :: 0 <= i < |h.ledger.messages| ==> Ledger.Balanced(h.ledger.checks, h.ledger.messages[i]))
    && |h.server.works| == |h.ledger.messages|
    && (forall w :: 0 <= w < |h.server.works| ==> Agrees(h.server.works[w], h.ledger.messages[w]))
  }

  /** A step of the server alone. */
  lemma {:induction false} ServerStepAgrees(h: Handling, step: Server.Step, w: nat)
    requires Server.Enabled(h.server, step) && IsHandlersStep(h, step)
    requires |h.server.works| == |h.ledger.messages| && w < |h.server.works|
    requires Agrees(h.server.works[w], h.ledger.messages[w])
    requires Ledger.Balanced(h.ledger.checks, h.ledger.messages[w])
    ensures |Server.Apply(h.server, step).works| == |h.server.works|
    ensures Agrees(Server.Apply(h.server, step).works[w], h.ledger.messages[w])
  {
    hide Server.CutAll;
    if step.ResponseStep? || step.ResultEnds? { StreamsOnly(h.server, step); }
  }

  lemma {:induction false} StreamsOnly(s: Server.Server, step: Server.Step)
    requires Server.Enabled(s, step) && (step.ResponseStep? || step.ResultEnds?)
    ensures Server.Apply(s, step).works == s.works
  {
  }

  lemma {:induction false} MovesAgree(h: Handling, step: Server.Step)
    requires Inv(h) && Enabled(h, Moves(step))
    ensures Inv(Apply(h, Moves(step)))
  {
    Guarantees.StepKeeps(h.server, step);
    var t := Server.Apply(h.server, step);
    hide Server.Inv;
    hide Server.Apply;
    hide Server.Enabled;
    hide Ledger.Balanced;
    hide Agrees;
    if h.server.works == [] { ServerStepNoWorks(h, step); }
    forall w | 0 <= w < |h.server.works|
      ensures |t.works| == |h.server.works| && Agrees(t.works[w], h.ledger.messages[w])
    {
      ServerStepAgrees(h, step, w);
    }
  }

  lemma {:induction false} ServerStepNoWorks(h: Handling, step: Server.Step)
    requires Server.Enabled(h.server, step) && IsHandlersStep(h, step) && h.server.works == []
    ensures Server.Apply(h.server, step).works == []
  {
    hide Server.CutAll;
    if step.ResponseStep? || step.ResultEnds? { StreamsOnly(h.server, step); }
  }

  lemma {:induction false} DeliverAgrees(h: Handling, delivery: Ledger.Delivery, answer: Ledger.Answer)
    requires Inv(h)
    ensures Inv(Apply(h, Deliver(delivery, answer)))
  {
    var e := Apply(h, Deliver(delivery, answer));
    Ledger.StepBalances(h.ledger, Ledger.Deliver(delivery, answer));
    var last := |h.ledger.messages|;
    assert Ledger.Balanced(e.ledger.checks, e.ledger.messages[last]);
    Guarantees.ArrivalKeeps(h.server, Server.Reject);
    Guarantees.ArrivalKeeps(h.server, Server.Deliver(delivery.replyTo));
    hide Server.Inv;
    forall w | 0 <= w < |e.server.works| ensures Agrees(e.server.works[w], e.ledger.messages[w]) {
      if w < last { assert Agrees(h.server.works[w], h.ledger.messages[w]); }
    }
    hide Ledger.Balanced;
  }

  lemma {:induction false} DeserializedAgrees(h: Handling, w: nat, answer: Ledger.Answer)
    requires Inv(h) && Enabled(h, Deserialized(w, answer))
    ensures Inv(Apply(h, Deserialized(w, answer)))
  {
    var e := Apply(h, Deserialized(w, answer));
    Ledger.StepBalances(h.ledger, Ledger.Deserialized(w, answer));
    Ledger.StillAllowed(h.ledger.checks, h.ledger.messages[w], answer);
    if !h.server.works[w].request { Guarantees.BeginKeeps(h.server, w); }
    hide Server.Inv;
    hide Ledger.Dispatch;
    assert Ledger.Balanced(h.ledger.checks, h.ledger.messages[w]);
    forall v | 0 <= v < |e.server.works| ensures Agrees(e.server.works[v], e.ledger.messages[v]) {
      assert Agrees(h.server.works[v], h.ledger.messages[v]);
    }
    hide Ledger.Balanced;
  }

  lemma {:induction false} DeserializeFailsAgrees(h: Handling, w: nat)
    requires Inv(h) && Enabled(h, DeserializeFails(w))
    ensures Inv(Apply(h, DeserializeFails(w)))
  {
    var e := Apply(h, DeserializeFails(w));
    Ledger.StepBalances(h.ledger, Ledger.DeserializeFails(w));
    Guarantees.SettlingKeeps(h.server, w, Failed);
    hide Server.Inv;
    hide Ledger.Balanced;
    forall v | 0 <= v < |e.server.works| ensures Agrees(e.server.works[v], e.ledger.messages[v]) {
      assert Agrees(h.server.works[v], h.ledger.messages[v]);
    }
  }

  /** Steps of the ledger that end in the outcome the server found, and the ends of handlings. */
  lemma {:induction false} EndAgrees(h: Handling, step: Step)
    requires Inv(h) && Enabled(h, step) && (step.HandlerSettles? || step.Concludes? || step.Forgotten?)
    ensures Inv(Apply(h, step))
  {
    var e, w := Apply(h, step), step.message;
    if step.HandlerSettles? { Ledger.StepBalances(h.ledger, Ledger.HandlerSettles(w)); }
    if step.Concludes? { Ledger.StepBalances(h.ledger, Ledger.HandlerEnds(w, h.server.works[w].phase.outcome)); }
    if step.Forgotten? {
      Guarantees.SettledKeeps(h.server, w);
      assert Ledger.Balanced(h.ledger.checks, h.ledger.messages[w]);
    }
    hide Server.Inv;
    forall v | 0 <= v < |e.server.works| ensures Agrees(e.server.works[v], e.ledger.messages[v]) {
      assert Agrees(h.server.works[v], h.ledger.messages[v]);
    }
    hide Ledger.Balanced;
  }

  lemma {:induction false} StepAgrees(h: Handling, step: Step)
    requires Inv(h) && Enabled(h, step)
    ensures Inv(Apply(h, step))
  {
    hide Inv;
    match step {
      case Deliver(delivery, answer) => DeliverAgrees(h, delivery, answer);
      case DeserializeFails(w) => DeserializeFailsAgrees(h, w);
      case Deserialized(w, answer) => DeserializedAgrees(h, w, answer);
      case Moves(s) => MovesAgree(h, s);
      case _ => EndAgrees(h, step);
    }
  }

  lemma {:induction false} RunAgrees(h: Handling, steps: seq<Step>)
    requires Inv(h) && Legal(h, steps)
    ensures Inv(Exec(h, steps))
    decreases |steps|
  {
    hide Inv;
    if steps != [] {
      StepAgrees(h, steps[0]);
      RunAgrees(Apply(h, steps[0]), steps[1..]);
    }
  }

  // -------------------------------------------------------------- guarantee

  ghost predicate Reachable(h: Handling) {
    exists steps :: Legal(NothingYet(h.ledger.checks), steps) && Exec(NothingYet(h.ledger.checks), steps) == h
  }

  lemma {:induction false} ReachableInv(h: Handling)
    requires Reachable(h)
    ensures Inv(h)
  {
    var start := NothingYet(h.ledger.checks);
    var steps :| Legal(start, steps) && Exec(start, steps) == h;
    RunAgrees(start, steps);
    hide Exec;
    hide Legal;
  }

  /**
   * A request's message is completed only if its client was answered: a reply of
   * its response was acknowledged or the error reply was attempted, but for a
   * response that `close()` cut between queueing and starting its first reply.
   */
  lemma {:induction false} CompletedWasAnswered(h: Handling, w: nat)
    requires Reachable(h) && w < |h.ledger.messages|
    requires h.ledger.messages[w].delivery.replyTo && Completed in h.ledger.messages[w].calls
    ensures w < |h.server.works| && Guarantees.WasAnswered(h.server, w)
  {
    ReachableInv(h);
    assert Ledger.Balanced(h.ledger.checks, h.ledger.messages[w]);
    assert Agrees(h.server.works[w], h.ledger.messages[w]);
    hide Server.Inv;
    Guarantees.SucceededWasAnswered(h.server, w);
  }

  /**
   * And every message is settled as its handling ended: abandoned only if it
   * failed, left alone if `close()` cancelled it or for a reason of its own.
   */
  lemma {:induction false} SettledAsItEnded(h: Handling, w: nat)
    requires Reachable(h) && w < |h.ledger.messages| && w < |h.server.works|
    requires h.ledger.messages[w].phase.Over?
    ensures
      var phase, m := h.server.works[w].phase, h.ledger.messages[w];
      && (phase.Settling? || phase.Done?)
      && (Abandoned in m.calls ==> phase.outcome.Failed?)
      && (phase.outcome.CancelledByClose? ==> m.calls == [])
      && (phase.outcome.Rejected? <==> Ledger.IsRejected(m))
      && (m.calls == [] <==> Ledger.LeftAlone(m))
      && m.outcome == Some(phase.outcome)
  {
    ReachableInv(h);
    assert Ledger.Balanced(h.ledger.checks, h.ledger.messages[w]);
    assert Agrees(h.server.works[w], h.ledger.messages[w]);
    hide Server.Inv;
  }
}
