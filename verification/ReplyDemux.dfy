/**
 * Which request each reply is handed to, and what that request's caller sees:
 * the replies to several requests arrive interleaved on shared receivers, each
 * is completed before it is handed over, and is then deserialized, perhaps
 * asynchronously, one after another per request.
 */
module ReplyDemux {
  import opened Values
  import opened ReplyCodec
  import opened RouterModel
  import opened RouterInvariant
  import opened ReplyDelivery
  import Pipe = ReplyPipeline
  import Replies = ReplyGuarantees

  /** A reply message as it arrives: its `correlationId`, if it is a string. */
  datatype Incoming = Incoming(id: Option<string>, message: Message)

  /** While a request waits: its listener, and which of the replies completed there are its window. */
  datatype Window = Window(home: nat, since: nat, until: Option<nat>)

  datatype Demux = Demux(
    router: Router,
    processing: map<nat, Incoming>,            // per listener: the message whose completion is awaited
    completed: seq<seq<Incoming>>,             // history: per listener, the messages completed
    windows: map<string, Window>,              // history
    replies: map<string, seq<Message>>,        // history: the calls of each request's waiter.reply()
    delivered: map<string, seq<Option<Js>>>    // per request, the deliverReply() calls over: None, or its error
  )

  datatype DemuxStep =
    | Route(step: Step)
    | Receive(listener: nat, message: Incoming)
    | CompletionSettles(listener: nat, ok: bool)
    | Deliver(id: string, failure: Option<Js>)

  function NoReplies(session: bool): Demux {
    Demux(Empty(session), map[], [], map[], map[], map[])
  }

  /** A receiver hands over one message at a time: its callback is awaited. It hands over none once closed. */
  predicate DemuxEnabled(d: Demux, step: DemuxStep) {
    match step
    case Route(s) => Enabled(d.router, s)
    case Receive(l, m) =>
      && l < |d.router.all| && d.router.all[l].subscribed && !ReceiverReleased(d.router.all[l])
      && l !in d.processing
    case CompletionSettles(l, ok) => l in d.processing && l < |d.router.all| && l < |d.completed|
    case Deliver(id, _) => id in d.replies && id in d.delivered && |d.delivered[id]| < |d.replies[id]|
  }

  /** The window of a request after a step of the router. */
  function WindowAfter(d: Demux, s: Router, id: string): Window
    requires id in s.fate
  {
    if id in d.windows then
      var w := d.windows[id];
      if w.until.None? && !s.fate[id].Waiting? && w.home < |d.completed| then w.(until := Some(|d.completed[w.home]|))
      else w
    else
      var home := if s.fate[id].Waiting? then s.fate[id].listener else 0;
      Window(home, if home < |d.completed| then |d.completed[home]| else 0, None)
  }

  function RouteIn(d: Demux, step: Step): Demux
    requires Enabled(d.router, step)
  {
    var s := Apply(d.router, step);
    d.(router := s,
       completed := d.completed + if |s.all| > |d.completed| then [[]] else [],
       windows := map id | id in s.fate :: WindowAfter(d, s, id),
       replies := map id | id in s.fate :: if id in d.replies then d.replies[id] else [],
       delivered := map id | id in s.fate :: if id in d.delivered then d.delivered[id] else [])
  }

  /** `processMessage()` up to the settlement call it awaits. */
  function ReceiveIn(d: Demux, l: nat, m: Incoming): Demux
    requires l < |d.router.all|
  {
    if Settlement(d.router, l, m.id).Completed? then d.(processing := d.processing[l := m]) else d
  }

  /** Whether the message goes to a request that still waits on the listener. */
  predicate GoesToWaiter(d: Demux, l: nat, m: Incoming)
    requires l < |d.router.all|
  {
    m.id.Some? && m.id.value in d.router.all[l].waiters && m.id.value in d.replies
  }

  /** The message was completed (or could not be): the request that still waits gets it. */
  function CompletionSettlesIn(d: Demux, l: nat, ok: bool): Demux
    requires l in d.processing && l < |d.router.all| && l < |d.completed|
  {
    var m := d.processing[l];
    var next := d.(processing := d.processing - {l});
    if !ok then next
    else
      next.(completed := d.completed[l := d.completed[l] + [m]],
            replies := if GoesToWaiter(d, l, m) then d.replies[m.id.value := d.replies[m.id.value] + [m.message]]
                       else d.replies)
  }

  function DeliverIn(d: Demux, id: string, failure: Option<Js>): Demux
    requires id in d.delivered
  {
    d.(delivered := d.delivered[id := d.delivered[id] + [failure]])
  }

  function DemuxApply(d: Demux, step: DemuxStep): Demux
    requires DemuxEnabled(d, step)
  {
    match step
    case Route(s) => RouteIn(d, s)
    case Receive(l, m) => ReceiveIn(d, l, m)
    case CompletionSettles(l, ok) => CompletionSettlesIn(d, l, ok)
    case Deliver(id, failure) => DeliverIn(d, id, failure)
  }

  predicate DemuxLegal(d: Demux, steps: seq<DemuxStep>)
    decreases |steps|
  {
    steps == [] || (DemuxEnabled(d, steps[0]) && DemuxLegal(DemuxApply(d, steps[0]), steps[1..]))
  }

  function DemuxExec(d: Demux, steps: seq<DemuxStep>): Demux
    requires DemuxLegal(d, steps)
    decreases |steps|
  {
    if steps == [] then d else DemuxExec(DemuxApply(d, steps[0]), steps[1..])
  }

  // -------------------------------------------------------------- invariant

  /** The messages for `id` among those completed, in order. */
  function For(id: string, completed: seq<Incoming>): seq<Message> {
    if completed == [] then []
    else
      var m := completed[|completed| - 1];
      For(id, completed[..|completed| - 1]) + if m.id == Some(id) then [m.message] else []
  }

  function WindowEnd(d: Demux, id: string): nat
    requires id in d.windows
  {
    var w := d.windows[id];
    match w.until case Some(end) => end case None => if w.home < |d.completed| then |d.completed[w.home]| else 0
  }

  /** The request got exactly the replies to its id that its listener completed while it waited. */
  ghost predicate GotItsReplies(d: Demux, id: string)
    requires id in d.windows && id in d.replies
  {
    var w := d.windows[id];
    && w.home < |d.completed| && w.since <= WindowEnd(d, id) <= |d.completed[w.home]|
    && d.replies[id] == For(id, d.completed[w.home][w.since..WindowEnd(d, id)])
  }

  /** The histories cover the router's listeners and requests. */
  ghost predicate Covers(d: Demux) {
    && |d.completed| == |d.router.all|
    && d.windows.Keys == d.router.fate.Keys && d.replies.Keys == d.router.fate.Keys
    && d.delivered.Keys == d.router.fate.Keys
    && (forall l :: l in d.processing ==> l < |d.router.all|)
  }

  ghost predicate RequestOk(d: Demux, id: string)
    requires Covers(d) && id in d.windows
  {
    && GotItsReplies(d, id)
    && (if d.router.fate[id].Waiting? then
          d.windows[id].home == d.router.fate[id].listener && d.windows[id].until.None?
        else d.windows[id].until.Some?)
    && |d.delivered[id]| <= |d.replies[id]|
  }

  ghost predicate DemuxInv(d: Demux) {
    Inv(d.router) && Covers(d) && forall id :: id in d.windows ==> RequestOk(d, id)
  }

  // ------------------------------------------------ what the router's steps do

  ghost predicate WaitersKnown(r: Router) {
    forall i, id :: 0 <= i < |r.all| && id in r.all[i].waiters ==> id in r.fate
  }

  /** No request is forgotten, added, or starts to wait again. */
  ghost predicate FatesMove(r: Router, s: Router) {
    && s.fate.Keys == r.fate.Keys && |s.all| == |r.all|
    && forall id :: id in r.fate ==> s.fate[id] == r.fate[id] || !s.fate[id].Waiting?
  }

  lemma {:induction false} StopWaitingMoves(r: Router, l: nat, id: string)
    requires WaitersKnown(r)
    ensures WaitersKnown(StopWaitingIn(r, l, id)) && FatesMove(r, StopWaitingIn(r, l, id))
  {
    if l < |r.all| && id in r.all[l].waiters {
      CloseListenerFrame(Leave(r, l, id), l);
    }
    hide CloseListener;
    hide Recent.Without;
    hide Recent.Added;
  }

  lemma {:induction false} FatesMoveOn(r: Router, s: Router, t: Router)
    requires FatesMove(r, s) && FatesMove(s, t)
    ensures FatesMove(r, t)
  {
  }

  lemma {:induction false} StopAllMoves(r: Router, stops: seq<Stop>)
    requires WaitersKnown(r)
    ensures WaitersKnown(StopAll(r, stops)) && FatesMove(r, StopAll(r, stops))
    decreases |stops|
  {
    if stops != [] {
      var next := StopWaitingIn(r, stops[0].listener, stops[0].id);
      StopWaitingMoves(r, stops[0].listener, stops[0].id);
      StopAllMoves(next, stops[1..]);
      FatesMoveOn(r, next, StopAll(r, stops));
    }
  }

  lemma {:induction false} FailMoves(r: Router, id: string)
    requires WaitersKnown(r) && id in r.fate
    ensures WaitersKnown(Fail(r, id)) && FatesMove(r, Fail(r, id))
  {
  }

  lemma {:induction false} FailEachMoves(r: Router, ids: seq<string>, script: seq<seq<Stop>>)
    requires WaitersKnown(r) && forall id :: id in ids ==> id in r.fate
    ensures WaitersKnown(FailEach(r, ids, script)) && FatesMove(r, FailEach(r, ids, script))
    decreases |ids|
  {
    if ids != [] {
      var stops := if script == [] then [] else script[0];
      var next := StopAll(Fail(r, ids[0]), stops);
      FailMoves(r, ids[0]);
      StopAllMoves(Fail(r, ids[0]), stops);
      FatesMoveOn(r, Fail(r, ids[0]), next);
      FailEachMoves(next, ids[1..], if script == [] then [] else script[1..]);
      FatesMoveOn(r, next, FailEach(r, ids, script));
    }
  }

  lemma {:induction false} FailAllMoves(r: Router, l: nat, script: seq<seq<Stop>>)
    requires WaitersKnown(r) && l < |r.all|
    ensures WaitersKnown(FailAll(r, l, script)) && FatesMove(r, FailAll(r, l, script))
  {
    var failed := FailEach(Clear(r, l), r.all[l].waiters, script);
    FailEachSize(Clear(r, l), r.all[l].waiters, script);
    FailEachMoves(Clear(r, l), r.all[l].waiters, script);
    CloseListenerFrame(failed, l);
    hide FailEach;
    hide CloseListener;
  }

  lemma {:induction false} FailListenersMoves(r: Router, ls: seq<nat>, scripts: seq<seq<seq<Stop>>>)
    requires WaitersKnown(r) && forall i :: 0 <= i < |ls| ==> ls[i] < |r.all|
    ensures FatesMove(r, FailListeners(r, ls, scripts))
    decreases |ls|
  {
    if ls != [] {
      var next := FailAll(r, ls[0], if scripts == [] then [] else scripts[0]);
      FailAllMoves(r, ls[0], if scripts == [] then [] else scripts[0]);
      FailListenersMoves(next, ls[1..], if scripts == [] then [] else scripts[1..]);
      FatesMoveOn(r, next, FailListeners(r, ls, scripts));
    }
  }

  lemma {:induction false} PlainStepMoves(r: Router, step: Step)
    requires Enabled(r, step)
    requires step.OpenResumes? || step.SessionSettles? || step.CloseResumes? || step.ReceiverCloses?
          || step.SubscriptionCloses?
    ensures FatesMove(r, Apply(r, step))
  {
  }

  lemma {:induction false} StepMoves(r: Router, step: Step)
    requires Inv(r) && Enabled(r, step) && !step.Wait?
    ensures FatesMove(r, Apply(r, step))
  {
    assert WaitersKnown(r) by {
      forall i, id | 0 <= i < |r.all| && id in r.all[i].waiters ensures id in r.fate { WaiterIsKnown(r, i, id); }
    }
    hide Inv;
    hide FailAll;
    hide FailListeners;
    hide StopWaitingIn;
    match step {
      case StopWaiting(l, id) => StopWaitingMoves(r, l, id);
      case OpenFails(l, script) => FailAllMoves(r, l, script);
      case FatalError(l, script) => FailAllMoves(r, l, script);
      case CloseRouter(scripts) => FailListenersMoves(r, Registered(r, 0), scripts);
      case _ => PlainStepMoves(r, step);
    }
  }

  // ---------------------------------------------------- the invariant, kept

  lemma {:induction false} NothingYet(id: string)
    ensures For(id, []) == []
  {
  }

  lemma {:induction false} WaitMoves(r: Router, replyTo: string, id: string)
    requires Inv(r) && Enabled(r, Wait(replyTo, id))
    ensures
      var s := WaitIn(r, replyTo, id);
      && s.fate.Keys == r.fate.Keys + {id} && |r.all| <= |s.all| <= |r.all| + 1
      && s.fate[id].Waiting? && s.fate[id].listener < |s.all|
      && forall x :: x in r.fate ==> s.fate[x] == r.fate[x]
  {
    hide Inv;
  }

  lemma {:induction false} ForMore(id: string, completed: seq<Incoming>, m: Incoming)
    ensures For(id, completed + [m]) == For(id, completed) + if m.id == Some(id) then [m.message] else []
  {
    assert (completed + [m])[..|completed|] == completed;
  }

  /** A request that waited before the step: its window may close, and loses nothing. */
  lemma {:induction false} OldRequestKept(d: Demux, step: Step, id: string)
    requires Covers(d) && id in d.windows && RequestOk(d, id) && Enabled(d.router, step)
    requires Covers(RouteIn(d, step))
    requires
      var s := Apply(d.router, step);
      id in s.fate && (s.fate[id] == d.router.fate[id] || !s.fate[id].Waiting?)
    ensures RequestOk(RouteIn(d, step), id)
  {
    hide Apply;
    hide For;
    assert RouteIn(d, step).completed[d.windows[id].home] == d.completed[d.windows[id].home];
  }

  /** A request that starts to wait has got nothing yet. */
  lemma {:induction false} NewRequestStarts(d: Demux, step: Step, id: string)
    requires Covers(d) && id !in d.windows && Enabled(d.router, step)
    requires Covers(RouteIn(d, step))
    requires
      var s := Apply(d.router, step);
      id in s.fate && s.fate[id].Waiting? && s.fate[id].listener < |s.all|
    ensures RequestOk(RouteIn(d, step), id)
  {
    hide Apply;
    NothingYet(id);
    hide For;
    var e := RouteIn(d, step);
    var w := e.windows[id];
    assert e.completed[w.home][w.since..WindowEnd(e, id)] == [];
  }

  lemma {:induction false} RouteCovers(d: Demux, step: Step)
    requires Covers(d) && Enabled(d.router, step)
    requires |d.router.all| <= |Apply(d.router, step).all| <= |d.router.all| + 1
    ensures Covers(RouteIn(d, step))
  {
    hide Apply;
    hide WindowAfter;
  }

  /** What a step of the router does to the requests: they stop waiting, and only a new one starts to. */
  lemma {:induction false} FatesAfter(r: Router, step: Step)
    requires Inv(r) && Enabled(r, step)
    ensures
      var s := Apply(r, step);
      && |r.all| <= |s.all| <= |r.all| + 1
      && (forall id :: id in r.fate ==> id in s.fate && (s.fate[id] == r.fate[id] || !s.fate[id].Waiting?))
      && (forall id :: id in s.fate && id !in r.fate ==>
            step.Wait? && step.id == id && s.fate[id].Waiting? && s.fate[id].listener < |s.all|)
  {
    hide Inv;
    if step.Wait? {
      WaitMoves(r, step.replyTo, step.id);
    } else {
      StepMoves(r, step);
    }
    hide WaitIn;
  }

  lemma {:induction false} RouteKeeps(d: Demux, step: Step)
    requires DemuxInv(d) && Enabled(d.router, step)
    ensures DemuxInv(RouteIn(d, step))
  {
    hide Inv;
    hide RequestOk;
    hide Covers;
    StepKeeps(d.router, step);
    FatesAfter(d.router, step);
    hide Apply;
    RouteCovers(d, step);
    RouteRequests(d, step);
  }

  lemma {:induction false} RouteRequests(d: Demux, step: Step)
    requires Covers(d) && Enabled(d.router, step) && Covers(RouteIn(d, step))
    requires forall id :: id in d.windows ==> RequestOk(d, id)
    requires
      var s := Apply(d.router, step);
      && (forall id :: id in d.router.fate ==>
            id in s.fate && (s.fate[id] == d.router.fate[id] || !s.fate[id].Waiting?))
      && (forall id :: id in s.fate && id !in d.router.fate ==>
            s.fate[id].Waiting? && s.fate[id].listener < |s.all|)
    ensures forall id :: id in RouteIn(d, step).windows ==> RequestOk(RouteIn(d, step), id)
  {
    hide Apply;
    hide RequestOk;
    hide WindowAfter;
    forall id | id in RouteIn(d, step).windows ensures RequestOk(RouteIn(d, step), id) {
      if id in d.windows {
        OldRequestKept(d, step, id);
      } else {
        NewRequestStarts(d, step, id);
      }
    }
  }

  lemma {:induction false} WaitersOf(r: Router, l: nat, id: string)
    requires Inv(r) && l < |r.all|
    ensures id in r.all[l].waiters <==> id in r.fate && r.fate[id] == Waiting(l)
  {
    hide Registration;
    hide SessionOrder;
    hide ClosingMap;
    hide Lifecycles;
  }

  lemma {:induction false} CompletionKeepsRequest(d: Demux, l: nat, ok: bool, id: string)
    requires Covers(d) && DemuxEnabled(d, CompletionSettles(l, ok)) && id in d.windows && RequestOk(d, id)
    requires id in d.router.all[l].waiters <==> d.router.fate[id] == Waiting(l)
    requires Covers(CompletionSettlesIn(d, l, ok))
    ensures RequestOk(CompletionSettlesIn(d, l, ok), id)
  {
    hide For;
    if ok {
      var e, m, w := CompletionSettlesIn(d, l, ok), d.processing[l], d.windows[id];
      if w.home == l && w.until.None? {
        assert e.completed[l][w.since..WindowEnd(e, id)] == d.completed[l][w.since..WindowEnd(d, id)] + [m];
        ForMore(id, d.completed[l][w.since..WindowEnd(d, id)], m);
      } else {
        assert e.completed[w.home][w.since..WindowEnd(e, id)] == d.completed[w.home][w.since..WindowEnd(d, id)];
      }
    }
  }

  lemma {:induction false} CompletionKeeps(d: Demux, l: nat, ok: bool)
    requires DemuxInv(d) && DemuxEnabled(d, CompletionSettles(l, ok))
    ensures DemuxInv(CompletionSettlesIn(d, l, ok))
  {
    hide Inv;
    var e := CompletionSettlesIn(d, l, ok);
    assert Covers(e);
    hide RequestOk;
    forall id | id in e.windows ensures RequestOk(e, id) {
      WaitersOf(d.router, l, id);
      CompletionKeepsRequest(d, l, ok, id);
    }
  }

  /** What a message arriving, or delivered, does not touch. */
  lemma {:induction false} SameRequest(d: Demux, e: Demux, id: string)
    requires Covers(d) && Covers(e) && id in d.windows && RequestOk(d, id)
    requires e.router == d.router && e.completed == d.completed && e.windows == d.windows && e.replies == d.replies
    requires |e.delivered[id]| <= |d.replies[id]|
    ensures RequestOk(e, id)
  {
    hide For;
  }

  lemma {:induction false} ReceiveKeepsRequest(d: Demux, l: nat, m: Incoming, id: string)
    requires Covers(d) && DemuxEnabled(d, Receive(l, m)) && id in d.windows && RequestOk(d, id)
    requires Covers(ReceiveIn(d, l, m))
    ensures RequestOk(ReceiveIn(d, l, m), id)
  {
    hide Settlement;
    hide GotItsReplies;
    assert GotItsReplies(d, id);
    SameRequest(d, ReceiveIn(d, l, m), id);
  }

  lemma {:induction false} ReceiveKeeps(d: Demux, l: nat, m: Incoming)
    requires DemuxInv(d) && DemuxEnabled(d, Receive(l, m))
    ensures DemuxInv(ReceiveIn(d, l, m))
  {
    hide Inv;
    hide Settlement;
    var e := ReceiveIn(d, l, m);
    assert Covers(e);
    hide RequestOk;
    forall id | id in e.windows ensures RequestOk(e, id) {
      assert RequestOk(d, id);
      ReceiveKeepsRequest(d, l, m, id);
    }
  }

  lemma {:induction false} DeliverKeeps(d: Demux, id: string, failure: Option<Js>)
    requires DemuxInv(d) && DemuxEnabled(d, Deliver(id, failure))
    ensures DemuxInv(DeliverIn(d, id, failure))
  {
    hide Inv;
    var e := DeliverIn(d, id, failure);
    assert Covers(e);
    hide RequestOk;
    forall x | x in e.windows ensures RequestOk(e, x) {
      DeliverKeepsRequest(d, id, failure, x);
    }
  }

  lemma {:induction false} DeliverKeepsRequest(d: Demux, id: string, failure: Option<Js>, x: string)
    requires Covers(d) && DemuxEnabled(d, Deliver(id, failure)) && x in d.windows && RequestOk(d, x)
    requires Covers(DeliverIn(d, id, failure))
    ensures RequestOk(DeliverIn(d, id, failure), x)
  {
    hide GotItsReplies;
    assert GotItsReplies(d, x);
    SameRequest(d, DeliverIn(d, id, failure), x);
  }

  lemma {:induction false} DemuxStepKeeps(d: Demux, step: DemuxStep)
    requires DemuxInv(d) && DemuxEnabled(d, step)
    ensures DemuxInv(DemuxApply(d, step))
  {
    hide DemuxInv;
    match step {
      case Route(s) => RouteKeeps(d, s);
      case Receive(l, m) => ReceiveKeeps(d, l, m);
      case CompletionSettles(l, ok) => CompletionKeeps(d, l, ok);
      case Deliver(id, failure) => DeliverKeeps(d, id, failure);
    }
  }

  lemma {:induction false} DemuxRunKeeps(d: Demux, steps: seq<DemuxStep>)
    requires DemuxInv(d) && DemuxLegal(d, steps)
    ensures DemuxInv(DemuxExec(d, steps))
    decreases |steps|
  {
    hide DemuxInv;
    if steps != [] {
      DemuxStepKeeps(d, steps[0]);
      DemuxRunKeeps(DemuxApply(d, steps[0]), steps[1..]);
    }
  }

  // ------------------------------------------------------------- guarantees

  /** Whether some run, with or without sessions, reaches `d`. */
  ghost predicate Reachable(d: Demux) {
    exists steps ::
      DemuxLegal(NoReplies(d.router.session), steps) && DemuxExec(NoReplies(d.router.session), steps) == d
  }

  lemma {:induction false} ReachableInv(d: Demux)
    requires Reachable(d)
    ensures DemuxInv(d)
  {
    var start := NoReplies(d.router.session);
    var steps :| DemuxLegal(start, steps) && DemuxExec(start, steps) == d;
    EmptyInv(d.router.session);
    DemuxRunKeeps(start, steps);
    hide DemuxExec;
    hide DemuxLegal;
    hide Inv;
  }

  /**
   * Every request gets exactly the replies whose correlation id is its own, in
   * the order its listener completed them, from when it starts to wait until it
   * stops, and nobody else's; each is handed over one after another.
   */
  lemma {:induction false} EachGetsItsOwnReplies(d: Demux, id: string)
    requires Reachable(d) && id in d.router.fate
    ensures id in d.windows && id in d.replies && id in d.delivered
    ensures GotItsReplies(d, id)
    ensures d.router.fate[id].Waiting? ==>
      d.windows[id].home == d.router.fate[id].listener && d.windows[id].until.None?
    ensures |d.delivered[id]| <= |d.replies[id]|
  {
    ReachableInv(d);
    hide Inv;
    assert RequestOk(d, id);
    hide GotItsReplies;
  }

  // ------------------------------------------------- what the caller is told

  /** What the observer is told for one reply: its packets, or the error of its deserializer. */
  function Told(message: Message, outcome: Option<Js>): seq<Event> {
    match outcome
    case None => Decode(message)
    case Some(err) => NestObserver(Packet(Some(err), None, false))
  }

  /** What the caller of `send()` sees once `outcomes` of the deliveries are known. */
  function CallerSees(messages: seq<Message>, outcomes: seq<Option<Js>>): seq<Event>
    requires |outcomes| <= |messages|
    decreases |outcomes|
  {
    if outcomes == [] then []
    else
      var last := |outcomes| - 1;
      var before := CallerSees(messages, outcomes[..last]);
      if Terminated(before) then before else before + Told(messages[last], outcomes[last])
  }

  /** However slow the deserializer is, its callers see the messages in order. */
  lemma {:induction false} SlowDeserializerKeepsOrder(messages: seq<Message>, outcomes: seq<Option<Js>>)
    requires |outcomes| <= |messages| && forall i :: 0 <= i < |outcomes| ==> outcomes[i].None?
    ensures CallerSees(messages, outcomes) == Observe(messages[..|outcomes|])
    decreases |outcomes|
  {
    hide Decode;
    if outcomes != [] {
      var last := |outcomes| - 1;
      SlowDeserializerKeepsOrder(messages, outcomes[..last]);
      assert messages[..|outcomes|][..last] == messages[..last];
    } else {
      assert messages[..0] == [];
    }
  }

  /**
   * The first deserializer that fails, whatever it fails with: its caller is told
   * of the error, after what came before; but of a falsy error as a value that is
   * undefined. The Observable ends there if and only if the error is truthy.
   */
  lemma {:induction false} FailedDeserializer(messages: seq<Message>, outcomes: seq<Option<Js>>, k: nat)
    requires k < |outcomes| <= |messages| && forall i :: 0 <= i < k ==> outcomes[i].None?
    requires outcomes[k].Some?
    ensures
      var before, after := Observe(messages[..k]), CallerSees(messages, outcomes[..k + 1]);
      var err := outcomes[k].value;
      && after == (if Terminated(before) then before
                   else before + [if IsTruthy(err) then Error(err) else Next(Undefined)])
      && (Terminated(after) <==> Terminated(before) || IsTruthy(err))
      && (Terminated(after) ==> CallerSees(messages, outcomes) == after)
  {
    assert outcomes[..k + 1][..k] == outcomes[..k];
    SlowDeserializerKeepsOrder(messages, outcomes[..k]);
    if Terminated(CallerSees(messages, outcomes[..k + 1])) { NothingAfterTheEnd(messages, outcomes, k + 1); }
    hide Decode;
  }

  lemma {:induction false} NothingAfterTheEnd(messages: seq<Message>, outcomes: seq<Option<Js>>, n: nat)
    requires n <= |outcomes| <= |messages| && Terminated(CallerSees(messages, outcomes[..n]))
    ensures CallerSees(messages, outcomes) == CallerSees(messages, outcomes[..n])
    decreases |outcomes|
  {
    hide Told;
    if n == |outcomes| {
      assert outcomes[..n] == outcomes;
    } else {
      assert outcomes[..|outcomes| - 1][..n] == outcomes[..n];
      NothingAfterTheEnd(messages, outcomes[..|outcomes| - 1], n);
    }
  }

  lemma {:induction false} ObserveGrows(messages: seq<Message>, k: nat)
    requires k <= |messages|
    ensures Observe(messages[..k]) <= Observe(messages)
    decreases |messages| - k
  {
    hide Decode;
    if k == |messages| {
      assert messages[..k] == messages;
    } else {
      assert messages[..k + 1][..k] == messages[..k];
      ObserveGrows(messages, k + 1);
    }
  }

  /**
   * From the handler to the caller: when the request gets its response's messages
   * in order (see `ReplyQueue`), however deserializing is delayed, the caller has
   * seen at any time a prefix of what `ClientView` says of the whole response; and
   * exactly the handler's events once it finished and all of it was delivered.
   */
  lemma {:induction false} EndToEnd(d: Demux, id: string, p: Pipe.Pipeline)
    requires Reachable(d) && id in d.router.fate && id in d.replies && id in d.delivered
    requires Replies.Reachable(p) && !p.single && p.id == id && d.replies[id] <= p.wire.messages
    requires forall i :: 0 <= i < |d.delivered[id]| ==> d.delivered[id][i].None?
    ensures |d.delivered[id]| <= |d.replies[id]| && CallerSeesResponse(d.replies[id], d.delivered[id], p)
  {
    ReachableInv(d);
    EndToEndIn(d, id, p);
    hide *;
  }

  /** A prefix of the handler's events and perhaps the generic error; all of the events once all was delivered. */
  ghost predicate CallerSeesResponse(replies: seq<Message>, outcomes: seq<Option<Js>>, p: Pipe.Pipeline)
    requires |outcomes| <= |replies|
  {
    && (exists before ::
          && Replies.ClientView(p, before)
          && CallerSees(replies, outcomes) <= Replies.WithErrorReply(before, p.wire.errorSent))
    && (Pipe.Finished(p) && !p.stream.stopped && |outcomes| == |p.wire.messages| ==>
          CallerSees(replies, outcomes) == SeenAll(Pipe.Events(p.source)))
  }

  lemma {:induction false} EndToEndIn(d: Demux, id: string, p: Pipe.Pipeline)
    requires DemuxInv(d) && id in d.windows && id in d.replies && id in d.delivered
    requires Replies.Reachable(p) && !p.single && p.id == id && d.replies[id] <= p.wire.messages
    requires forall i :: 0 <= i < |d.delivered[id]| ==> d.delivered[id][i].None?
    ensures |d.delivered[id]| <= |d.replies[id]| && CallerSeesResponse(d.replies[id], d.delivered[id], p)
  {
    assert RequestOk(d, id);
    hide DemuxInv;
    Replies.ReachableInv(p);
    SlowDeserializerKeepsOrder(d.replies[id], d.delivered[id]);
    PrefixOfClientView(p, d.replies[id], |d.delivered[id]|);
    hide Observe;
    hide CallerSees;
    hide SeenAll;
    hide Pipe.Inv;
    hide GotItsReplies;
    hide Replies.Reachable;
  }

  /** What is observed of a prefix of the messages on the reply queue. */
  lemma {:induction false} PrefixOfClientView(p: Pipe.Pipeline, messages: seq<Message>, n: nat)
    requires Pipe.Inv(p) && !p.single && messages <= p.wire.messages && n <= |messages|
    ensures exists before ::
      Replies.ClientView(p, before) && Observe(messages[..n]) <= Replies.WithErrorReply(before, p.wire.errorSent)
    ensures Pipe.Finished(p) && !p.stream.stopped && n == |p.wire.messages| ==>
      Observe(messages[..n]) == SeenAll(Pipe.Events(p.source))
  {
    hide Observe;
    hide SeenAll;
    hide Pipe.Inv;
    hide Messages;
    hide Pipe.Finished;
    hide Pipe.Events;
    assert messages[..n] == p.wire.messages[..n];
    ObserveGrows(p.wire.messages, n);
    Replies.ClientSeesState(p);
    var before := Observe(Messages(p.id, p.source.scheduled[..p.wire.sent]));
    assert Replies.ClientView(p, before);
    if n == |p.wire.messages| { assert p.wire.messages[..n] == p.wire.messages; }
  }
}
