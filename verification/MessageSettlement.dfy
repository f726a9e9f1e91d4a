/**
 * How the server settles the messages it receives: the check of `replyTo`, which
 * may answer differently each time it is asked, what the handler does, and the
 * one settlement call that follows. Any number of messages are handled at once.
 */
module MessageSettlement {
  import opened Outcomes
  import opened Values

  /** What `allowedReplyTo` does if it is asked now. */
  datatype Answer = Allows | Denies | Throws

  /** What is fixed when the message arrives. */
  datatype Delivery = Delivery(
    receiver: bool,        // its pattern has a receiver
    peekLock: bool,        // in peekLock mode; receiveAndDelete otherwise
    autoComplete: bool,
    replyTo: bool          // it is a request
  )

  datatype Phase = Deserializing | Handling | Over

  datatype Message = Message(
    delivery: Delivery,
    rejected: Option<bool>,       // the entry of `replyToRejected`
    phase: Phase,
    handlerSettled: bool,         // `remote_settled`
    asked: nat,                   // history: calls of allowedReplyTo
    dispatched: bool,             // history: it got to its handler
    outcome: Option<Outcome>,     // history: how its handling ended
    calls: seq<Verdict>           // history: the settlement calls
  )

  /** `checks`: whether the `allowedReplyTo` option is set. */
  datatype Server = Server(checks: bool, messages: seq<Message>)

  datatype Step =
    | Deliver(delivery: Delivery, answer: Answer)
    | DeserializeFails(message: nat)
    | Deserialized(message: nat, answer: Answer)
    | HandlerSettles(message: nat)
    | HandlerEnds(message: nat, outcome: Outcome)

  /** Whether the message is locked, and so can be settled. */
  predicate Locked(d: Delivery) {
    d.receiver && d.peekLock
  }

  /** `rejectsReplyTo()`: the message after the check, its verdict in `rejected`. */
  function Check(checks: bool, m: Message, answer: Answer): Message {
    if !m.delivery.replyTo || !checks || m.rejected.Some? then m
    else m.(rejected := Some(!answer.Allows?), asked := m.asked + 1)
  }

  predicate IsRejected(m: Message) {
    m.rejected == Some(true)
  }

  /** The end of `processMessage()`, once `handleMessage()` ended or was not called. */
  function Conclude(m: Message, outcome: Outcome): Message {
    var next := m.(phase := Over, outcome := Some(outcome));
    match outcome
    case CancelledByClose => next
    case Rejected => if Locked(m.delivery) then next.(calls := m.calls + [DeadLettered]) else next
    case Failed => if Locked(m.delivery) && !m.handlerSettled then next.(calls := m.calls + [Abandoned]) else next
    case Succeeded =>
      if m.delivery.receiver && m.delivery.autoComplete && Locked(m.delivery) && !m.handlerSettled then
        next.(calls := m.calls + [Completed])
      else next
  }

  function NewMessage(delivery: Delivery): Message {
    Message(delivery, None, Deserializing, false, 0, false, None, [])
  }

  /** `processMessage()` up to its first await. */
  function Arrive(checks: bool, delivery: Delivery, answer: Answer): Message {
    var m := Check(checks, NewMessage(delivery), answer);
    if IsRejected(m) then Conclude(m, Rejected) else m
  }

  /** `handleMessage()` once the message is deserialized: a rejected request returns without a reply. */
  function Dispatch(checks: bool, m: Message, answer: Answer): Message {
    var next := Check(checks, m, answer);
    if m.delivery.replyTo && IsRejected(next) then Conclude(next, Succeeded)
    else next.(phase := Handling, dispatched := true)
  }

  predicate Enabled(s: Server, step: Step) {
    match step
    case Deliver(_, _) => true
    case DeserializeFails(i) => i < |s.messages| && s.messages[i].phase.Deserializing?
    case Deserialized(i, _) => i < |s.messages| && s.messages[i].phase.Deserializing?
    case HandlerSettles(i) => i < |s.messages| && s.messages[i].phase.Handling? && Locked(s.messages[i].delivery)
    case HandlerEnds(i, outcome) => i < |s.messages| && s.messages[i].phase.Handling? && !outcome.Rejected?
  }

  function Apply(s: Server, step: Step): Server
    requires Enabled(s, step)
  {
    match step
    case Deliver(delivery, answer) => s.(messages := s.messages + [Arrive(s.checks, delivery, answer)])
    case DeserializeFails(i) => s.(messages := s.messages[i := Conclude(s.messages[i], Failed)])
    case Deserialized(i, answer) => s.(messages := s.messages[i := Dispatch(s.checks, s.messages[i], answer)])
    case HandlerSettles(i) => s.(messages := s.messages[i := s.messages[i].(handlerSettled := true)])
    case HandlerEnds(i, outcome) => s.(messages := s.messages[i := Conclude(s.messages[i], outcome)])
  }

  predicate Legal(s: Server, steps: seq<Step>)
    decreases |steps|
  {
    steps == [] || (Enabled(s, steps[0]) && Legal(Apply(s, steps[0]), steps[1..]))
  }

  function Exec(s: Server, steps: seq<Step>): Server
    requires Legal(s, steps)
    decreases |steps|
  {
    if steps == [] then s else Exec(Apply(s, steps[0]), steps[1..])
  }

  // ------------------------------------------------------------- guarantees

  /** Whether it is left to the lock's expiry, to the handler, or was deleted on receipt. */
  predicate LeftAlone(m: Message) {
    || !Locked(m.delivery) || m.handlerSettled
    || m.outcome == Some(CancelledByClose)
    || (m.outcome == Some(Succeeded) && !m.delivery.autoComplete)
  }

  /** The ledger of one message, whatever `allowedReplyTo` answered. */
  ghost predicate Balanced(checks: bool, m: Message) {
    && |m.calls| <= 1
    && m.asked == (if m.rejected.Some? then 1 else 0)
    && (m.rejected.Some? <==> checks && m.delivery.replyTo)
    && (m.calls != [] ==> Locked(m.delivery) && !m.handlerSettled && m.phase.Over?)
    && (IsRejected(m) ==>
          && !m.dispatched && m.outcome == Some(Rejected)
          && m.calls == if Locked(m.delivery) then [DeadLettered] else [])
    && (m.outcome == Some(Rejected) ==> IsRejected(m))
    && (m.phase.Over? <==> m.outcome.Some?)
    && (m.phase.Handling? ==> m.dispatched)
    && (Completed in m.calls ==> m.dispatched && m.outcome == Some(Succeeded) && m.delivery.autoComplete)
    && (Abandoned in m.calls ==> m.outcome == Some(Failed))
    && (DeadLettered in m.calls ==> IsRejected(m))
    && (m.outcome == Some(CancelledByClose) ==> m.calls == [])
    && (m.handlerSettled ==> m.dispatched)
    && (m.phase.Over? ==> (m.calls == [] <==> LeftAlone(m)))
  }

  lemma {:induction false} ArriveBalances(checks: bool, delivery: Delivery, answer: Answer)
    ensures Balanced(checks, Arrive(checks, delivery, answer))
  {
  }

  lemma {:induction false} DispatchBalances(checks: bool, m: Message, answer: Answer)
    requires Balanced(checks, m) && m.phase.Deserializing?
    ensures Balanced(checks, Dispatch(checks, m, answer))
  {
  }

  lemma {:induction false} ConcludeBalances(checks: bool, m: Message, outcome: Outcome)
    requires Balanced(checks, m) && !m.phase.Over? && !outcome.Rejected?
    requires m.phase.Handling? || outcome.Failed?
    ensures Balanced(checks, Conclude(m, outcome))
  {
  }

  lemma {:induction false} HandlerSettlesBalances(checks: bool, m: Message)
    requires Balanced(checks, m) && m.phase.Handling?
    ensures Balanced(checks, m.(handlerSettled := true))
  {
  }

  /** Every step keeps the ledger of every message. */
  lemma {:induction false} StepBalances(s: Server, step: Step)
    requires Enabled(s, step) && forall i :: 0 <= i < |s.messages| ==> Balanced(s.checks, s.messages[i])
    ensures
      var t := Apply(s, step);
      t.checks == s.checks && forall i :: 0 <= i < |t.messages| ==> Balanced(t.checks, t.messages[i])
  {
    hide Balanced;
    hide Conclude;
    hide Dispatch;
    hide Arrive;
    match step {
      case Deliver(delivery, answer) => ArriveBalances(s.checks, delivery, answer);
      case DeserializeFails(i) => ConcludeBalances(s.checks, s.messages[i], Failed);
      case Deserialized(i, answer) => DispatchBalances(s.checks, s.messages[i], answer);
      case HandlerSettles(i) => HandlerSettlesBalances(s.checks, s.messages[i]);
      case HandlerEnds(i, outcome) => ConcludeBalances(s.checks, s.messages[i], outcome);
    }
  }

  lemma {:induction false} RunBalances(s: Server, steps: seq<Step>)
    requires Legal(s, steps) && forall i :: 0 <= i < |s.messages| ==> Balanced(s.checks, s.messages[i])
    ensures
      var t := Exec(s, steps);
      t.checks == s.checks && forall i :: 0 <= i < |t.messages| ==> Balanced(t.checks, t.messages[i])
    decreases |steps|
  {
    hide Balanced;
    if steps != [] {
      StepBalances(s, steps[0]);
      hide Apply;
      RunBalances(Apply(s, steps[0]), steps[1..]);
    }
  }

  /**
   * Every message, in every run: at most one settlement call, and none in
   * receiveAndDelete mode or once the handler settled it; `allowedReplyTo` is
   * asked at most once, and its one verdict stands: a rejected request never
   * gets to its handler and is dead-lettered, a completed one did get there; and
   * a handler that `close()` gave up on leaves its message unsettled. A message
   * left unsettled has a reason for it.
   */
  lemma {:induction false} LedgerBalances(checks: bool, steps: seq<Step>, i: nat)
    requires Legal(Server(checks, []), steps) && i < |Exec(Server(checks, []), steps).messages|
    ensures
      var m := Exec(Server(checks, []), steps).messages[i];
      && |m.calls| <= 1 && m.asked <= 1
      && (m.calls != [] ==> Locked(m.delivery) && !m.handlerSettled)
      && (IsRejected(m) ==> !m.dispatched && m.calls == if Locked(m.delivery) then [DeadLettered] else [])
      && (Completed in m.calls ==> m.dispatched && !IsRejected(m) && m.outcome == Some(Succeeded))
      && (DeadLettered in m.calls ==> IsRejected(m))
      && (m.outcome == Some(CancelledByClose) ==> m.calls == [])
      && (m.phase.Over? ==> (m.calls == [] <==> LeftAlone(m)))
  {
    RunBalances(Server(checks, []), steps);
    hide Exec;
    hide Legal;
    assert Balanced(checks, Exec(Server(checks, []), steps).messages[i]);
  }

  /** The second check of a message agrees with the first, which let it pass. */
  lemma {:induction false} StillAllowed(checks: bool, m: Message, answer: Answer)
    requires Balanced(checks, m) && m.phase.Deserializing?
    ensures Check(checks, m, answer) == m && !IsRejected(m)
    ensures Dispatch(checks, m, answer) == m.(phase := Handling, dispatched := true)
  {
  }

  // ------------------------------------------------------ the server's fields

  /** A class that handles messages as the server does, with its memory of verdicts. */
  class MessageHandler {
    /** Whether the `allowedReplyTo` option is set. */
    const checks: bool
    /** `replyToRejected`, by message. */
    var replyToRejected: map<nat, bool>
    /** The state of the run so far. */
    ghost var model: Server

    ghost predicate Valid()
      reads this
    {
      && model.checks == checks
      && (forall i :: 0 <= i < |model.messages| ==> Balanced(checks, model.messages[i]))
      && (forall i :: i in replyToRejected ==> i < |model.messages|)
      && (forall i :: 0 <= i < |model.messages| ==> Remembered(model.messages[i], i))
    }

    ghost predicate Remembered(m: Message, i: nat)
      reads this
    {
      m.rejected == if i in replyToRejected then Some(replyToRejected[i]) else None
    }

    constructor (checks: bool)
      ensures Valid() && model == Server(checks, [])
    {
      this.checks := checks;
      replyToRejected := map[];
      model := Server(checks, []);
    }

    /** `rejectsReplyTo()`; `answer` is what `allowedReplyTo` does if this call asks it. */
    method RejectsReplyTo(i: nat, replyTo: bool, answer: Answer) returns (rejects: bool)
      modifies this`replyToRejected
      ensures
        var before := if i in old(replyToRejected) then Some(old(replyToRejected)[i]) else None;
        var after := Check(checks, NewMessage(Delivery(false, false, false, replyTo)).(rejected := before), answer);
        && rejects == (replyTo && checks && IsRejected(after))
        && replyToRejected == (if after.rejected.Some? then old(replyToRejected)[i := after.rejected.value]
                               else old(replyToRejected))
    {
      if !replyTo || !checks {
        return false;
      }
      if i in replyToRejected {
        return replyToRejected[i];
      }
      rejects := !answer.Allows?;
      replyToRejected := replyToRejected[i := rejects];
    }

    /** `processMessage()` up to its first await; `call` is the settlement it makes. */
    method Deliver(i: nat, delivery: Delivery, answer: Answer) returns (call: Option<Verdict>)
      requires Valid() && i == |model.messages|
      modifies this
      ensures Valid() && model == Apply(old(model), Step.Deliver(delivery, answer))
      ensures model.messages[i].calls == Calls(call)
    {
      hide Balanced;
      StepBalances(model, Step.Deliver(delivery, answer));
      var rejects := RejectsReplyTo(i, delivery.replyTo, answer);
      call := if rejects && Locked(delivery) then Some(DeadLettered) else None;
      model := Apply(model, Step.Deliver(delivery, answer));
    }

    /** `handleMessage()` once the message is deserialized: whether its handler runs. */
    method Deserialized(i: nat, delivery: Delivery, answer: Answer) returns (runs: bool)
      requires Valid() && Enabled(model, Step.Deserialized(i, answer)) && model.messages[i].delivery == delivery
      modifies this
      ensures Valid() && model == Apply(old(model), Step.Deserialized(i, answer))
      ensures runs <==> model.messages[i].dispatched && model.messages[i].phase.Handling?
    {
      StepBalances(model, Step.Deserialized(i, answer));
      StillAllowed(checks, model.messages[i], answer);
      hide Balanced;
      hide Dispatch;
      hide Conclude;
      var rejects := RejectsReplyTo(i, delivery.replyTo, answer);
      runs := !rejects;
      model := Apply(model, Step.Deserialized(i, answer));
    }

    /** The end of `processMessage()`; `call` is the settlement it makes. */
    method HandlerEnds(i: nat, delivery: Delivery, handlerSettled: bool, outcome: Outcome)
      returns (call: Option<Verdict>)
      requires Valid() && Enabled(model, Step.HandlerEnds(i, outcome))
      requires model.messages[i].delivery == delivery && model.messages[i].handlerSettled == handlerSettled
      modifies this
      ensures Valid() && model == Apply(old(model), Step.HandlerEnds(i, outcome))
      ensures model.messages[i].calls == Calls(call)
    {
      StepBalances(model, Step.HandlerEnds(i, outcome));
      assert Balanced(checks, model.messages[i]);
      hide Balanced;
      var locked := Locked(delivery) && !handlerSettled;
      if outcome.CancelledByClose? {
        call := None;
      } else if outcome.Failed? {
        call := if locked then Some(Abandoned) else None;
      } else {
        call := if delivery.receiver && delivery.autoComplete && locked then Some(Completed) else None;
      }
      model := Apply(model, Step.HandlerEnds(i, outcome));
    }
  }

  function Calls(call: Option<Verdict>): seq<Verdict> {
    match call case None => [] case Some(verdict) => [verdict]
  }
}
