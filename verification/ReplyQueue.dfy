/**
 * A reply queue between the server and its clients: its messages are handed out
 * in the order they were sent, the next one once the one before is settled, and
 * one that was abandoned or could not be completed is handed out again. When a
 * request then gets all its replies, and in order.
 */
module ReplyQueue {
  import opened Outcomes
  import opened Values
  import opened ReplyCodec
  import opened RouterModel
  import opened RouterInvariant
  import opened ReplyDelivery
  import opened ReplyDemux
  import Progress = RouterProgress
  import Recent = RecentIds
  import Pipe = ReplyPipeline
  import Replies = ReplyGuarantees

  datatype Line = Line(
    demux: Demux,
    queue: string,
    sent: seq<Incoming>,      // history: the messages sent to the queue, in order
    taken: nat,               // how many of them have left it
    held: Option<nat>,        // the listener that is completing the next one
    dropped: set<string>      // history: the requests that missed a reply while they waited
  )

  datatype LineStep =
    | Send(message: Incoming)
    | HandOut(listener: nat)
    | Completes(listener: nat, ok: bool)
    | OtherTakes              // another client of the queue settles the next one, which is not for this one
    | Other(step: DemuxStep)

  function EmptyQueue(queue: string, session: bool): Line {
    Line(NoReplies(session), queue, [], 0, None, {})
  }

  predicate OnQueue(q: Line, l: nat) {
    l < |q.demux.router.all| && q.demux.router.all[l].replyTo == q.queue
  }

  /** The request waits, or waited, on a listener of the queue. */
  predicate AsksQueue(q: Line, id: string) {
    id in q.demux.windows && OnQueue(q, q.demux.windows[id].home)
  }

  /** No message with the request's id was sent yet: a reply follows its request. */
  predicate Unsent(q: Line, id: string) {
    forall i :: 0 <= i < |q.sent| ==> q.sent[i].id != Some(id)
  }

  predicate LineEnabled(q: Line, step: LineStep) {
    match step
    case Send(m) =>
      m.id.Some? && m.id.value in q.demux.router.fate ==> AsksQueue(q, m.id.value)
    case HandOut(l) =>
      && OnQueue(q, l) && q.held.None? && q.taken < |q.sent|
      && DemuxEnabled(q.demux, Receive(l, q.sent[q.taken]))
    case Completes(l, ok) =>
      q.held == Some(l) && OnQueue(q, l) && DemuxEnabled(q.demux, CompletionSettles(l, ok))
    case OtherTakes =>
      && q.held.None? && q.taken < |q.sent|
      && (q.sent[q.taken].id.Some? ==> q.sent[q.taken].id.value !in q.demux.router.fate)
    case Other(s) =>
      && DemuxEnabled(q.demux, s)
      && (s.Receive? || s.CompletionSettles? ==> !OnQueue(q, s.listener))
      && (s.Route? && s.step.Wait? ==> Unsent(q, s.step.id) && HasRequestIdShape(s.step.id))
  }

  /** The request that waits for the message that listener `l` completed elsewhere than where it waits. */
  function Missed(q: Line, l: nat, m: Incoming): set<string> {
    if m.id.Some? && m.id.value in q.demux.router.fate
       && q.demux.router.fate[m.id.value].Waiting? && q.demux.router.fate[m.id.value].listener != l
    then {m.id.value} else {}
  }

  function LineApply(q: Line, step: LineStep): Line
    requires LineEnabled(q, step)
  {
    match step
    case Send(m) => q.(sent := q.sent + [m])
    case HandOut(l) =>
      var m := q.sent[q.taken];
      var next := q.(demux := DemuxApply(q.demux, Receive(l, m)));
      (match Settlement(q.demux.router, l, m.id)
       case Completed => next.(held := Some(l))
       case Abandoned => next
       case DeadLettered => next.(taken := q.taken + 1))
    case Completes(l, ok) =>
      var next := q.(demux := DemuxApply(q.demux, CompletionSettles(l, ok)), held := None);
      if ok then next.(taken := q.taken + 1, dropped := q.dropped + Missed(q, l, q.demux.processing[l])) else next
    case OtherTakes => q.(taken := q.taken + 1)
    case Other(s) => q.(demux := DemuxApply(q.demux, s))
  }

  predicate LineLegal(q: Line, steps: seq<LineStep>)
    decreases |steps|
  {
    steps == [] || (LineEnabled(q, steps[0]) && LineLegal(LineApply(q, steps[0]), steps[1..]))
  }

  function LineExec(q: Line, steps: seq<LineStep>): Line
    requires LineLegal(q, steps)
    decreases |steps|
  {
    if steps == [] then q else LineExec(LineApply(q, steps[0]), steps[1..])
  }

  // -------------------------------------------------------------- invariant

  /** The message being completed is the next of the queue. */
  ghost predicate HeldIsNext(q: Line) {
    && q.taken <= |q.sent|
    && (forall l :: l in q.demux.processing && OnQueue(q, l) ==> q.held == Some(l))
    && (q.held.Some? ==>
          && q.taken < |q.sent| && OnQueue(q, q.held.value) && q.held.value in q.demux.processing
          && q.demux.processing[q.held.value] == q.sent[q.taken])
    && (forall i :: 0 <= i < |q.sent| && q.sent[i].id.Some? && q.sent[i].id.value in q.demux.router.fate ==>
          AsksQueue(q, q.sent[i].id.value))
  }

  /** Without sessions, the message being completed is not one that another listener's request waits for. */
  ghost predicate HeldIsOwn(q: Line) {
    !q.demux.router.session && q.held.Some? && q.taken < |q.sent| ==>
      Missed(q, q.held.value, q.sent[q.taken]) == {}
  }

  /** What a request of the queue has got: all its replies that left the queue, unless it missed one. */
  ghost predicate InLine(q: Line, id: string)
    requires id in q.demux.replies && id in q.demux.router.fate && q.taken <= |q.sent|
  {
    var replies, left := q.demux.replies[id], For(id, q.sent[..q.taken]);
    && (id !in q.dropped ==> replies <= left)
    && (id !in q.dropped && q.demux.router.fate[id].Waiting? ==> replies == left)
    && (id in q.dropped ==> |replies| < |left|)
  }

  /** Every request of the queue is in line. */
  ghost predicate AllInLine(q: Line)
    requires Covers(q.demux) && q.taken <= |q.sent|
  {
    forall id :: AsksQueue(q, id) ==> InLine(q, id)
  }

  ghost predicate Requests(q: Line) {
    && (forall id :: id in q.demux.router.fate ==> HasRequestIdShape(id))
    && q.dropped <= q.demux.router.fate.Keys
    && (!q.demux.router.session ==> q.dropped == {})
  }

  ghost predicate LineInv(q: Line) {
    DemuxInv(q.demux) && HeldIsNext(q) && HeldIsOwn(q) && Requests(q) && AllInLine(q)
  }

  lemma {:induction false} ForGrows(id: string, messages: seq<Incoming>, k: nat)
    requires k < |messages|
    ensures For(id, messages[..k + 1])
      == For(id, messages[..k]) + if messages[k].id == Some(id) then [messages[k].message] else []
  {
    assert messages[..k + 1] == messages[..k] + [messages[k]];
    ForMore(id, messages[..k], messages[k]);
  }

  lemma {:induction false} ForPrefix(id: string, messages: seq<Incoming>, k: nat)
    requires k <= |messages|
    ensures For(id, messages[..k]) <= For(id, messages)
    decreases |messages| - k
  {
    if k == |messages| {
      assert messages[..k] == messages;
    } else {
      ForGrows(id, messages, k);
      ForPrefix(id, messages, k + 1);
    }
  }

  // ------------------------------------------------------- the router's steps

  /** What a step of the router leaves as it was, of the demultiplexer. */
  ghost predicate Framed(d: Demux, e: Demux, step: Step)
    requires Covers(d) && Covers(e)
  {
    && e.processing == d.processing && |d.router.all| <= |e.router.all|
    && e.router.session == d.router.session
    && (forall l :: 0 <= l < |d.router.all| ==> e.router.all[l].replyTo == d.router.all[l].replyTo)
    && (forall id :: id in d.windows ==>
          && id in e.windows && e.windows[id].home == d.windows[id].home && e.replies[id] == d.replies[id]
          && (e.router.fate[id] == d.router.fate[id] || !e.router.fate[id].Waiting?))
    && (forall id :: id in e.windows && id !in d.windows ==> step.Wait? && step.id == id && e.replies[id] == [])
  }

  lemma {:induction false} RouteFrame(d: Demux, step: Step)
    requires DemuxInv(d) && Enabled(d.router, step)
    ensures Covers(d) && Covers(RouteIn(d, step)) && Framed(d, RouteIn(d, step), step)
  {
    RouteCovered(d, step);
    RouterFrame(d.router, step);
    RouteParts(d, step);
    var e := RouteIn(d, step);
    hide DemuxInv;
    hide Inv;
    hide Apply;
    hide Enabled;
    hide RouteIn;
    forall id | id in d.windows ensures SameHome(d, e, id) { HomeStays(d, step, id); }
    forall id | id in e.windows && id !in d.windows ensures e.replies[id] == [] { NewHasNothing(d, step, id); }
    hide *;
    Frames(d, e, step);
  }

  ghost predicate SameHome(d: Demux, e: Demux, id: string)
    requires Covers(d) && Covers(e) && id in d.windows
  {
    id in e.windows && e.windows[id].home == d.windows[id].home && e.replies[id] == d.replies[id]
  }

  lemma {:induction false} Frames(d: Demux, e: Demux, step: Step)
    requires Covers(d) && Covers(e) && e.processing == d.processing
    requires forall id :: id in d.windows ==> SameHome(d, e, id)
    requires forall id :: id in e.windows && id !in d.windows ==> e.replies[id] == []
    requires |d.router.all| <= |e.router.all| && e.router.session == d.router.session
    requires forall l :: 0 <= l < |d.router.all| ==> e.router.all[l].replyTo == d.router.all[l].replyTo
    requires forall id :: id in d.router.fate ==>
      id in e.router.fate && (e.router.fate[id] == d.router.fate[id] || !e.router.fate[id].Waiting?)
    requires forall id :: id in e.router.fate && id !in d.router.fate ==> step.Wait? && step.id == id
    ensures Framed(d, e, step)
  {
  }

  lemma {:induction false} RouteParts(d: Demux, step: Step)
    requires Enabled(d.router, step)
    ensures RouteIn(d, step).router == Apply(d.router, step) && RouteIn(d, step).processing == d.processing
  {
    hide Apply;
    hide Enabled;
  }

  lemma {:induction false} NewHasNothing(d: Demux, step: Step, id: string)
    requires Enabled(d.router, step) && id in RouteIn(d, step).replies && id !in d.replies
    ensures RouteIn(d, step).replies[id] == []
  {
    hide Apply;
    hide Enabled;
  }

  lemma {:induction false} RouteCovered(d: Demux, step: Step)
    requires DemuxInv(d) && Enabled(d.router, step)
    ensures Covers(d) && Covers(RouteIn(d, step))
  {
    RouteKeeps(d, step);
    DemuxCovers(d);
    DemuxCovers(RouteIn(d, step));
    hide *;
  }

  lemma {:induction false} HomeStays(d: Demux, step: Step, id: string)
    requires Enabled(d.router, step) && id in d.windows && id in d.replies && id in Apply(d.router, step).fate
    ensures
      var e := RouteIn(d, step);
      id in e.windows && e.windows[id].home == d.windows[id].home && e.replies[id] == d.replies[id]
  {
    hide Apply;
    hide Enabled;
  }

  lemma {:induction false} RouterFrame(r: Router, step: Step)
    requires Inv(r) && Enabled(r, step)
    ensures
      var s := Apply(r, step);
      && |r.all| <= |s.all| && s.session == r.session
      && (forall l :: 0 <= l < |r.all| ==> s.all[l].replyTo == r.all[l].replyTo)
      && (forall id :: id in r.fate ==> id in s.fate && (s.fate[id] == r.fate[id] || !s.fate[id].Waiting?))
      && (forall id :: id in s.fate && id !in r.fate ==> step.Wait? && step.id == id)
  {
    FatesAfter(r, step);
    Progress.InvOpenOnes(r);
    Progress.StepForward(r, step);
    SessionStays(r, step);
    SameQueues(r, Apply(r, step));
    hide *;
  }

  lemma {:induction false} SameQueues(r: Router, s: Router)
    requires Progress.Forward(r, s)
    ensures |r.all| <= |s.all| && forall l :: 0 <= l < |r.all| ==> s.all[l].replyTo == r.all[l].replyTo
  {
  }

  lemma {:induction false} StopAllSession(r: Router, stops: seq<Stop>)
    ensures StopAll(r, stops).session == r.session
    decreases |stops|
  {
    hide CloseListener;
    if stops != [] {
      StopSession(r, stops[0].listener, stops[0].id);
      hide StopWaitingIn;
      StopAllSession(StopWaitingIn(r, stops[0].listener, stops[0].id), stops[1..]);
    }
  }

  lemma {:induction false} StopSession(r: Router, l: nat, id: string)
    ensures StopWaitingIn(r, l, id).session == r.session
  {
    if l < |r.all| && id in r.all[l].waiters { CloseListenerFrame(Leave(r, l, id), l); }
    hide CloseListener;
  }

  lemma {:induction false} FailEachSession(r: Router, ids: seq<string>, script: seq<seq<Stop>>)
    ensures FailEach(r, ids, script).session == r.session
    decreases |ids|
  {
    hide StopAll;
    if ids != [] {
      var stops := if script == [] then [] else script[0];
      StopAllSession(Fail(r, ids[0]), stops);
      FailEachSession(StopAll(Fail(r, ids[0]), stops), ids[1..], if script == [] then [] else script[1..]);
    }
  }

  lemma {:induction false} FailAllSession(r: Router, l: nat, script: seq<seq<Stop>>)
    requires l < |r.all|
    ensures FailAll(r, l, script).session == r.session
  {
    FailEachSize(Clear(r, l), r.all[l].waiters, script);
    FailEachSession(Clear(r, l), r.all[l].waiters, script);
    CloseListenerFrame(FailEach(Clear(r, l), r.all[l].waiters, script), l);
    hide CloseListener;
    hide FailEach;
  }

  lemma {:induction false} FailListenersSession(r: Router, ls: seq<nat>, scripts: seq<seq<seq<Stop>>>)
    requires forall i :: 0 <= i < |ls| ==> ls[i] < |r.all|
    ensures FailListeners(r, ls, scripts).session == r.session
    decreases |ls|
  {
    hide FailAll;
    if ls != [] {
      var script := if scripts == [] then [] else scripts[0];
      FailAllSession(r, ls[0], script);
      FailListenersSession(FailAll(r, ls[0], script), ls[1..], if scripts == [] then [] else scripts[1..]);
    }
  }

  lemma {:induction false} SessionStays(r: Router, step: Step)
    requires Enabled(r, step)
    ensures Apply(r, step).session == r.session
  {
    hide FailAll;
    hide FailListeners;
    hide StopWaitingIn;
    match step {
      case StopWaiting(l, id) => StopSession(r, l, id);
      case OpenFails(l, script) => FailAllSession(r, l, script);
      case FatalError(l, script) => FailAllSession(r, l, script);
      case CloseRouter(scripts) => FailListenersSession(r, Registered(r, 0), scripts);
      case _ =>
    }
  }

  // --------------------------------------------------------- the invariant, kept

  /** A request that the step leaves alone, or that stops waiting, stays in line. */
  lemma {:induction false} StaysInLine(q: Line, e: Line, id: string)
    requires Covers(q.demux) && Covers(e.demux) && q.taken <= |q.sent| && e.taken <= |e.sent|
    requires id in q.demux.windows && id in e.demux.windows && InLine(q, id)
    requires e.dropped == q.dropped && e.taken == q.taken && q.sent <= e.sent
    requires e.demux.replies[id] == q.demux.replies[id]
    requires e.demux.router.fate[id] == q.demux.router.fate[id] || !e.demux.router.fate[id].Waiting?
    ensures InLine(e, id)
  {
    assert e.sent[..e.taken] == q.sent[..q.taken];
    hide For;
  }

  lemma {:induction false} SendKeeps(q: Line, m: Incoming)
    requires LineInv(q) && LineEnabled(q, Send(m))
    ensures LineInv(LineApply(q, Send(m)))
  {
    var e := LineApply(q, Send(m));
    DemuxCovers(q.demux);
    hide DemuxInv;
    hide Inv;
    SendInLine(q, m);
    SendHeld(q, m);
    hide AllInLine;
    hide Requests;
    hide Covers;
    hide AsksQueue;
    hide HeldIsNext;
    hide HeldIsOwn;
  }

  lemma {:induction false} SendHeld(q: Line, m: Incoming)
    requires HeldIsNext(q) && HeldIsOwn(q) && LineEnabled(q, Send(m))
    ensures HeldIsNext(LineApply(q, Send(m))) && HeldIsOwn(LineApply(q, Send(m)))
  {
  }

  lemma {:induction false} SendInLine(q: Line, m: Incoming)
    requires Covers(q.demux) && q.taken <= |q.sent| && AllInLine(q)
    ensures AllInLine(q.(sent := q.sent + [m]))
  {
    var e := q.(sent := q.sent + [m]);
    hide InLine;
    forall id | AsksQueue(e, id) ensures InLine(e, id) {
      assert AsksQueue(q, id);
      StaysInLine(q, e, id);
    }
  }

  lemma {:induction false} DemuxCovers(d: Demux)
    requires DemuxInv(d)
    ensures Covers(d) && Inv(d.router)
  {
  }

  /** A new request has got nothing, and nothing was sent for it. */
  lemma {:induction false} StartsInLine(q: Line, id: string)
    requires Covers(q.demux) && q.taken <= |q.sent| && id in q.demux.windows
    requires Unsent(q, id) && q.demux.replies[id] == [] && id !in q.dropped
    ensures InLine(q, id)
  {
    NothingFor(id, q.sent[..q.taken]);
    hide For;
  }

  lemma {:induction false} NothingFor(id: string, messages: seq<Incoming>)
    requires forall i :: 0 <= i < |messages| ==> messages[i].id != Some(id)
    ensures For(id, messages) == []
    decreases |messages|
  {
    if messages != [] { NothingFor(id, messages[..|messages| - 1]); }
  }

  lemma {:induction false} RouteInLine(q: Line, e: Line, step: Step)
    requires Covers(q.demux) && Covers(e.demux) && Framed(q.demux, e.demux, step) && q.taken <= |q.sent|
    requires e == q.(demux := e.demux) && AllInLine(q) && q.dropped <= q.demux.router.fate.Keys
    requires step.Wait? ==> Unsent(q, step.id)
    requires forall id :: id in q.demux.windows ==> q.demux.windows[id].home < |q.demux.router.all|
    ensures AllInLine(e)
  {
    hide InLine;
    forall id | AsksQueue(e, id) ensures InLine(e, id) {
      if id in q.demux.windows {
        assert AsksQueue(q, id);
        StaysInLine(q, e, id);
      } else {
        StartsInLine(e, id);
      }
    }
  }

  lemma {:induction false} RouteHeld(q: Line, e: Line, step: Step)
    requires Covers(q.demux) && Covers(e.demux) && Framed(q.demux, e.demux, step)
    requires e == q.(demux := e.demux) && HeldIsNext(q) && HeldIsOwn(q)
    requires step.Wait? ==> Unsent(q, step.id)
    requires forall id :: id in q.demux.windows ==> q.demux.windows[id].home < |q.demux.router.all|
    ensures HeldIsNext(e) && HeldIsOwn(e)
  {
  }

  lemma {:induction false} RouteKeepsLine(q: Line, step: Step)
    requires LineInv(q) && LineEnabled(q, Other(Route(step)))
    ensures LineInv(LineApply(q, Other(Route(step))))
  {
    var e := q.(demux := RouteIn(q.demux, step));
    RouteIs(q, step);
    hide LineApply;
    hide LineEnabled;
    hide DemuxApply;
    hide DemuxEnabled;
    hide DemuxInv;
    hide Inv;
    hide RouteIn;
    hide Enabled;
    hide AllInLine;
    hide HeldIsNext;
    hide HeldIsOwn;
    DemuxStepKeeps(q.demux, Route(step));
    RouteFrame(q.demux, step);
    HomesKnown(q.demux);
    RouteRequestsKept(q, e, step);
    hide Framed;
    hide Covers;
    hide Requests;
    hide Unsent;
    hide HasRequestIdShape;
    RouteInLine(q, e, step);
    RouteHeld(q, e, step);
  }

  lemma {:induction false} RouteRequestsKept(q: Line, e: Line, step: Step)
    requires Covers(q.demux) && Covers(e.demux) && Framed(q.demux, e.demux, step) && Requests(q)
    requires e == q.(demux := e.demux) && (step.Wait? ==> HasRequestIdShape(step.id))
    ensures Requests(e) && q.dropped <= q.demux.router.fate.Keys
  {
    hide HasRequestIdShape;
  }

  lemma {:induction false} RouteIs(q: Line, step: Step)
    requires LineEnabled(q, Other(Route(step)))
    ensures DemuxEnabled(q.demux, Route(step)) && Enabled(q.demux.router, step)
    ensures LineApply(q, Other(Route(step))) == q.(demux := RouteIn(q.demux, step))
    ensures DemuxApply(q.demux, Route(step)) == RouteIn(q.demux, step)
    ensures step.Wait? ==> Unsent(q, step.id) && HasRequestIdShape(step.id)
  {
    hide RouteIn;
    hide Enabled;
  }

  lemma {:induction false} HomesKnown(d: Demux)
    requires DemuxInv(d)
    ensures Covers(d) && forall id :: id in d.windows ==> d.windows[id].home < |d.router.all|
  {
    DemuxCovers(d);
    forall id | id in d.windows ensures d.windows[id].home < |d.router.all| { HomeKnown(d, id); }
    hide DemuxInv;
  }

  lemma {:induction false} HomeKnown(d: Demux, id: string)
    requires DemuxInv(d) && id in d.windows
    ensures d.windows[id].home < |d.router.all|
    ensures id in d.router.fate && d.router.fate[id].Waiting? ==> d.windows[id].home == d.router.fate[id].listener
  {
    assert RequestOk(d, id);
  }

  /** A message that listener `l` is handed, without sessions, is one it waits for itself or nobody waits for. */
  lemma {:induction false} OwnOrNobodys(r: Router, l: nat, id: string)
    requires Inv(r) && !r.session && l < |r.all| && Settlement(r, l, Some(id)).Completed?
    ensures id in r.fate && r.fate[id].Waiting? ==> r.fate[id].listener == l
  {
    if id in r.all[l].waiters { WaiterIsKnown(r, l, id); }
  }

  lemma {:induction false} OwnNotMissed(q: Line, l: nat)
    requires Inv(q.demux.router) && !q.demux.router.session && OnQueue(q, l) && q.taken < |q.sent|
    requires Settlement(q.demux.router, l, q.sent[q.taken].id).Completed?
    ensures Missed(q, l, q.sent[q.taken]) == {}
  {
    if q.sent[q.taken].id.Some? { OwnOrNobodys(q.demux.router, l, q.sent[q.taken].id.value); }
    hide Inv;
    hide Settlement;
  }

  lemma {:induction false} HandOutNext(q: Line, l: nat)
    requires HeldIsNext(q) && LineEnabled(q, HandOut(l))
    ensures HeldIsNext(LineApply(q, HandOut(l)))
  {
    hide Settlement;
  }

  lemma {:induction false} HandOutOwn(q: Line, l: nat)
    requires LineEnabled(q, HandOut(l))
    requires !q.demux.router.session && Settlement(q.demux.router, l, q.sent[q.taken].id).Completed? ==>
      Missed(q, l, q.sent[q.taken]) == {}
    ensures HeldIsOwn(LineApply(q, HandOut(l)))
  {
    hide Settlement;
  }

  /** A dead-lettered message is of no request of this client: their ids are well formed. */
  lemma {:induction false} DeadLetteredIsNobodys(q: Line, l: nat, m: Incoming)
    requires Requests(q) && OnQueue(q, l) && Settlement(q.demux.router, l, m.id).DeadLettered?
    ensures forall id :: id in q.demux.router.fate ==> m.id != Some(id)
  {
    hide IsOwn;
    hide HasRequestIdShape;
  }

  /** A message nobody of this client asked for leaves the queue. */
  lemma {:induction false} OthersInLine(q: Line, e: Line)
    requires Covers(q.demux) && q.taken < |q.sent| && AllInLine(q) && e == q.(taken := q.taken + 1)
    requires forall id :: id in q.demux.router.fate ==> q.sent[q.taken].id != Some(id)
    ensures AllInLine(e)
  {
    forall id | AsksQueue(e, id) ensures InLine(e, id) {
      assert AsksQueue(q, id) && InLine(q, id);
      ForGrows(id, q.sent, q.taken);
    }
    hide For;
  }

  lemma {:induction false} OtherTakesKeeps(q: Line)
    requires LineInv(q) && LineEnabled(q, OtherTakes)
    ensures LineInv(LineApply(q, OtherTakes))
  {
    var e := q.(taken := q.taken + 1);
    assert LineApply(q, OtherTakes) == e;
    DemuxCovers(q.demux);
    hide LineApply;
    hide DemuxInv;
    hide Inv;
    OthersInLine(q, e);
    hide AllInLine;
  }

  lemma {:induction false} HandOutKeeps(q: Line, l: nat)
    requires LineInv(q) && LineEnabled(q, HandOut(l))
    ensures LineInv(LineApply(q, HandOut(l)))
  {
    var m, e := q.sent[q.taken], LineApply(q, HandOut(l));
    DemuxStepKeeps(q.demux, Receive(l, m));
    DemuxCovers(q.demux);
    HandOutDemux(q, l);
    DemuxCovers(e.demux);
    var verdict := Settlement(q.demux.router, l, m.id);
    if !q.demux.router.session && verdict.Completed? { OwnNotMissed(q, l); }
    if verdict.DeadLettered? { DeadLetteredIsNobodys(q, l, m); }
    hide Settlement;
    hide DemuxInv;
    hide Inv;
    hide Covers;
    HandOutNext(q, l);
    HandOutOwn(q, l);
    HandOutInLine(q, l);
    hide HeldIsNext;
    hide HeldIsOwn;
    hide AllInLine;
    hide LineEnabled;
    HandOutRequests(q, l);
    hide Requests;
    hide LineApply;
  }

  lemma {:induction false} HandOutDemux(q: Line, l: nat)
    requires LineEnabled(q, HandOut(l))
    ensures LineApply(q, HandOut(l)).demux == DemuxApply(q.demux, Receive(l, q.sent[q.taken]))
  {
    hide Settlement;
    hide DemuxApply;
  }

  lemma {:induction false} HandOutRequests(q: Line, l: nat)
    requires Requests(q) && LineEnabled(q, HandOut(l))
    ensures Requests(LineApply(q, HandOut(l)))
  {
    hide Settlement;
    hide HasRequestIdShape;
  }

  lemma {:induction false} HandOutInLine(q: Line, l: nat)
    requires Covers(q.demux) && q.taken <= |q.sent| && AllInLine(q) && LineEnabled(q, HandOut(l))
    requires Settlement(q.demux.router, l, q.sent[q.taken].id).DeadLettered? ==>
      forall id :: id in q.demux.router.fate ==> q.sent[q.taken].id != Some(id)
    requires Covers(LineApply(q, HandOut(l)).demux)
    ensures AllInLine(LineApply(q, HandOut(l)))
  {
    var e := LineApply(q, HandOut(l));
    hide Settlement;
    hide InLine;
    if Settlement(q.demux.router, l, q.sent[q.taken].id).DeadLettered? {
      OthersInLine(q, q.(taken := q.taken + 1));
      assert e == q.(taken := q.taken + 1);
    } else {
      forall id | AsksQueue(e, id) ensures InLine(e, id) {
        assert AsksQueue(q, id);
        StaysInLine(q, e, id);
      }
    }
  }

  // ---------------------------------------------------------------- completion

  lemma {:induction false} TakenInLine(q: Line, l: nat, id: string)
    requires LineEnabled(q, Completes(l, true)) && HeldIsNext(q) && AsksQueue(q, id)
    requires Covers(q.demux) && InLine(q, id)
    requires id in q.demux.router.all[l].waiters <==> q.demux.router.fate[id] == Waiting(l)
    requires Covers(LineApply(q, Completes(l, true)).demux)
    ensures InLine(LineApply(q, Completes(l, true)), id)
  {
    hide For;
    ForGrows(id, q.sent, q.taken);
  }

  lemma {:induction false} CompletesHeld(q: Line, l: nat, ok: bool)
    requires HeldIsNext(q) && LineEnabled(q, Completes(l, ok))
    ensures HeldIsNext(LineApply(q, Completes(l, ok))) && HeldIsOwn(LineApply(q, Completes(l, ok)))
  {
  }

  lemma {:induction false} CompletesInLine(q: Line, l: nat, ok: bool)
    requires LineInv(q) && LineEnabled(q, Completes(l, ok)) && Covers(LineApply(q, Completes(l, ok)).demux)
    requires LineApply(q, Completes(l, ok)).taken <= |q.sent|
    ensures AllInLine(LineApply(q, Completes(l, ok)))
  {
    var e := LineApply(q, Completes(l, ok));
    DemuxCovers(q.demux);
    hide DemuxInv;
    hide InLine;
    hide HeldIsNext;
    forall id | AsksQueue(e, id) ensures InLine(e, id) {
      assert AsksQueue(q, id) && InLine(q, id);
      WaitersOf(q.demux.router, l, id);
      hide Inv;
      if ok { TakenInLine(q, l, id); } else { StaysInLine(q, e, id); }
    }
  }

  lemma {:induction false} CompletesRequests(q: Line, l: nat, ok: bool)
    requires HeldIsNext(q) && HeldIsOwn(q) && Requests(q) && LineEnabled(q, Completes(l, ok))
    ensures Requests(LineApply(q, Completes(l, ok)))
  {
  }

  lemma {:induction false} CompletesKeeps(q: Line, l: nat, ok: bool)
    requires LineInv(q) && LineEnabled(q, Completes(l, ok))
    ensures LineInv(LineApply(q, Completes(l, ok)))
  {
    var e := LineApply(q, Completes(l, ok));
    DemuxStepKeeps(q.demux, CompletionSettles(l, ok));
    assert e.demux == DemuxApply(q.demux, CompletionSettles(l, ok));
    DemuxCovers(e.demux);
    CompletesHeld(q, l, ok);
    CompletesRequests(q, l, ok);
    hide DemuxInv;
    hide Inv;
    assert e.taken <= |q.sent|;
    hide HeldIsNext;
    hide HeldIsOwn;
    CompletesInLine(q, l, ok);
    hide AllInLine;
    hide Requests;
    hide LineApply;
  }

  // ----------------------------------------------------------- other queues

  /** A step that concerns neither the queue's messages nor the router. */
  lemma {:induction false} AsideKeeps(q: Line, e: Line)
    requires Covers(q.demux) && Covers(e.demux) && HeldIsNext(q) && HeldIsOwn(q) && Requests(q) && AllInLine(q)
    requires e == q.(demux := e.demux) && e.demux.router == q.demux.router && e.demux.windows == q.demux.windows
    requires forall l :: OnQueue(q, l) ==>
      (l in e.demux.processing <==> l in q.demux.processing)
      && (l in q.demux.processing ==> e.demux.processing[l] == q.demux.processing[l])
    requires forall id :: AsksQueue(q, id) ==> e.demux.replies[id] == q.demux.replies[id]
    ensures HeldIsNext(e) && HeldIsOwn(e) && Requests(e) && AllInLine(e)
  {
    hide InLine;
    hide HasRequestIdShape;
    forall id | AsksQueue(e, id) ensures InLine(e, id) {
      assert AsksQueue(q, id);
      StaysInLine(q, e, id);
    }
  }

  /** What such a step leaves as it was, of the demultiplexer. */
  lemma {:induction false} AsideParts(d: Demux, step: DemuxStep)
    requires DemuxEnabled(d, step) && !step.Route?
    ensures
      var e := DemuxApply(d, step);
      && e.router == d.router && e.windows == d.windows
      && (!step.CompletionSettles? ==> e.replies == d.replies)
      && (step.Deliver? ==> e.processing == d.processing)
      && (step.Receive? || step.CompletionSettles? ==>
            forall l :: l != step.listener ==>
              (l in e.processing <==> l in d.processing)
              && (l in d.processing ==> e.processing[l] == d.processing[l]))
  {
    hide Settlement;
  }

  /** A request of the queue gets nothing from another queue's listener. */
  lemma {:induction false} AsideReplies(q: Line, l: nat, ok: bool, id: string)
    requires DemuxEnabled(q.demux, CompletionSettles(l, ok)) && !OnQueue(q, l) && AsksQueue(q, id)
    requires id in q.demux.replies && id in q.demux.router.fate
    requires id in q.demux.router.all[l].waiters <==> q.demux.router.fate[id] == Waiting(l)
    requires q.demux.router.fate[id].Waiting? ==> q.demux.windows[id].home == q.demux.router.fate[id].listener
    ensures
      var e := CompletionSettlesIn(q.demux, l, ok);
      id in e.replies && e.replies[id] == q.demux.replies[id]
  {
  }

  lemma {:induction false} AsideStep(q: Line, step: DemuxStep)
    requires LineInv(q) && LineEnabled(q, Other(step)) && !step.Route?
    ensures LineInv(LineApply(q, Other(step)))
  {
    var e := q.(demux := DemuxApply(q.demux, step));
    AsideIs(q, step);
    hide LineApply;
    hide LineEnabled;
    hide DemuxApply;
    hide DemuxEnabled;
    hide DemuxInv;
    hide Inv;
    hide AllInLine;
    hide HeldIsNext;
    hide HeldIsOwn;
    hide Requests;
    hide OnQueue;
    hide AsksQueue;
    DemuxStepKeeps(q.demux, step);
    AsideProcessing(q, step);
    AsideSame(q, step);
    hide Covers;
    AsideKeeps(q, e);
  }

  lemma {:induction false} AsideIs(q: Line, step: DemuxStep)
    requires LineEnabled(q, Other(step)) && !step.Route?
    ensures DemuxEnabled(q.demux, step) && LineApply(q, Other(step)) == q.(demux := DemuxApply(q.demux, step))
    ensures step.Receive? || step.CompletionSettles? ==> !OnQueue(q, step.listener)
  {
    hide DemuxApply;
    hide DemuxEnabled;
  }

  lemma {:induction false} AsideProcessing(q: Line, step: DemuxStep)
    requires DemuxEnabled(q.demux, step) && !step.Route?
    requires step.Receive? || step.CompletionSettles? ==> !OnQueue(q, step.listener)
    ensures
      var e := DemuxApply(q.demux, step);
      && e.router == q.demux.router && e.windows == q.demux.windows
      && forall l :: OnQueue(q, l) ==>
           (l in e.processing <==> l in q.demux.processing)
           && (l in q.demux.processing ==> e.processing[l] == q.demux.processing[l])
  {
    AsideParts(q.demux, step);
    hide DemuxApply;
    hide DemuxEnabled;
  }

  lemma {:induction false} AsideSame(q: Line, step: DemuxStep)
    requires DemuxInv(q.demux) && DemuxEnabled(q.demux, step) && !step.Route?
    requires step.CompletionSettles? ==> !OnQueue(q, step.listener)
    ensures Covers(q.demux) && Covers(DemuxApply(q.demux, step))
    ensures forall id :: AsksQueue(q, id) ==>
      && id in q.demux.replies && id in DemuxApply(q.demux, step).replies
      && DemuxApply(q.demux, step).replies[id] == q.demux.replies[id]
  {
    DemuxStepKeeps(q.demux, step);
    DemuxCovers(q.demux);
    DemuxCovers(DemuxApply(q.demux, step));
    AsideParts(q.demux, step);
    hide DemuxApply;
    hide DemuxEnabled;
    hide DemuxInv;
    hide Inv;
    forall id | AsksQueue(q, id)
      ensures id in q.demux.replies && DemuxApply(q.demux, step).replies[id] == q.demux.replies[id]
    {
      if step.CompletionSettles? { AsideCompletion(q, step.listener, step.ok, id); }
    }
  }

  lemma {:induction false} AsideCompletion(q: Line, l: nat, ok: bool, id: string)
    requires DemuxInv(q.demux) && DemuxEnabled(q.demux, CompletionSettles(l, ok)) && !OnQueue(q, l) && AsksQueue(q, id)
    ensures
      var e := DemuxApply(q.demux, CompletionSettles(l, ok));
      id in q.demux.replies && id in e.replies && e.replies[id] == q.demux.replies[id]
  {
    DemuxCovers(q.demux);
    HomeKnown(q.demux, id);
    WaitersOf(q.demux.router, l, id);
    hide DemuxInv;
    hide Inv;
    AsideReplies(q, l, ok, id);
  }

  lemma {:induction false} LineStepKeeps(q: Line, step: LineStep)
    requires LineInv(q) && LineEnabled(q, step)
    ensures LineInv(LineApply(q, step))
  {
    hide LineInv;
    match step {
      case Send(m) => SendKeeps(q, m);
      case HandOut(l) => HandOutKeeps(q, l);
      case Completes(l, ok) => CompletesKeeps(q, l, ok);
      case OtherTakes => OtherTakesKeeps(q);
      case Other(s) => if s.Route? { RouteKeepsLine(q, s.step); } else { AsideStep(q, s); }
    }
  }

  lemma {:induction false} LineRunKeeps(q: Line, steps: seq<LineStep>)
    requires LineInv(q) && LineLegal(q, steps)
    ensures LineInv(LineExec(q, steps))
    decreases |steps|
  {
    hide LineInv;
    if steps != [] {
      LineStepKeeps(q, steps[0]);
      LineRunKeeps(LineApply(q, steps[0]), steps[1..]);
    }
  }

  // ------------------------------------------------------------- guarantees

  ghost predicate Reachable(q: Line) {
    exists session, steps ::
      LineLegal(EmptyQueue(q.queue, session), steps) && LineExec(EmptyQueue(q.queue, session), steps) == q
  }

  lemma {:induction false} EmptyLine(queue: string, session: bool)
    ensures LineInv(EmptyQueue(queue, session))
  {
    hide Inv;
    EmptyInv(session);
  }

  lemma {:induction false} ReachableInv(q: Line)
    requires Reachable(q)
    ensures LineInv(q)
  {
    var session, steps :|
      LineLegal(EmptyQueue(q.queue, session), steps) && LineExec(EmptyQueue(q.queue, session), steps) == q;
    EmptyLine(q.queue, session);
    hide *;
    LineRunKeeps(EmptyQueue(q.queue, session), steps);
  }

  /**
   * What a request of the queue has got of its replies: all that left the queue
   * while it waits, and a prefix of them afterwards, if and only if none of them
   * was completed on another listener while it waited. Without sessions none is.
   */
  lemma {:induction false} RepliesArriveInOrder(q: Line, id: string)
    requires Reachable(q) && AsksQueue(q, id)
    ensures id in q.demux.replies && id in q.demux.router.fate && q.taken <= |q.sent|
    ensures id !in q.dropped ==> q.demux.replies[id] <= For(id, q.sent[..q.taken]) <= For(id, q.sent)
    ensures q.demux.router.fate[id].Waiting? ==>
      (q.demux.replies[id] == For(id, q.sent[..q.taken]) <==> id !in q.dropped)
    ensures !q.demux.router.session ==> id !in q.dropped
  {
    ReachableInv(q);
    DemuxCovers(q.demux);
    assert InLine(q, id);
    ForPrefix(id, q.sent, q.taken);
    hide DemuxInv;
    hide Inv;
    hide For;
  }

  /**
   * From the handler to the caller, through the queue: when the messages of a
   * response are those sent to the queue for its request, in that order, and the
   * request missed none, `EndToEnd` holds, with no more said of their order.
   */
  lemma {:induction false} ThroughTheQueue(q: Line, id: string, p: Pipe.Pipeline)
    requires Reachable(q) && AsksQueue(q, id) && id !in q.dropped
    requires Replies.Reachable(p) && !p.single && p.id == id && For(id, q.sent) == p.wire.messages
    requires id in q.demux.delivered
    requires forall i :: 0 <= i < |q.demux.delivered[id]| ==> q.demux.delivered[id][i].None?
    ensures id in q.demux.replies && |q.demux.delivered[id]| <= |q.demux.replies[id]|
    ensures CallerSeesResponse(q.demux.replies[id], q.demux.delivered[id], p)
  {
    RepliesArriveInOrder(q, id);
    ReachableInv(q);
    hide Reachable;
    hide For;
    hide DemuxInv;
    hide CallerSeesResponse;
    hide Replies.Reachable;
    EndToEndIn(q.demux, id, p);
  }

  /**
   * A request misses a reply exactly when the reply is completed on a listener
   * that is not its own while it waits, which takes sessions.
   */
  lemma {:induction false} MissesExactlyElsewhere(q: Line, l: nat, id: string)
    requires Reachable(q) && LineEnabled(q, Completes(l, true)) && id !in q.dropped
    ensures l in q.demux.processing
    ensures id in LineApply(q, Completes(l, true)).dropped <==>
      && q.demux.processing[l].id == Some(id) && id in q.demux.router.fate
      && q.demux.router.fate[id].Waiting? && q.demux.router.fate[id].listener != l
    ensures id in LineApply(q, Completes(l, true)).dropped ==> q.demux.router.session
  {
    ReachableInv(q);
    LineStepKeeps(q, Completes(l, true));
    NoneMissed(LineApply(q, Completes(l, true)));
    CompletesMisses(q, l);
    MissedIs(q, l, q.demux.processing[l], id);
    hide *;
  }

  lemma {:induction false} MissedIs(q: Line, l: nat, m: Incoming, id: string)
    ensures id in Missed(q, l, m) <==>
      && m.id == Some(id) && id in q.demux.router.fate
      && q.demux.router.fate[id].Waiting? && q.demux.router.fate[id].listener != l
  {
  }

  lemma {:induction false} NoneMissed(q: Line)
    requires LineInv(q)
    ensures !q.demux.router.session ==> q.dropped == {}
  {
    hide DemuxInv;
    hide AllInLine;
  }

  lemma {:induction false} CompletesMisses(q: Line, l: nat)
    requires LineEnabled(q, Completes(l, true))
    ensures l in q.demux.processing
    ensures LineApply(q, Completes(l, true)).dropped == q.dropped + Missed(q, l, q.demux.processing[l])
    ensures LineApply(q, Completes(l, true)).demux.router.session == q.demux.router.session
  {
    hide Missed;
  }

  // ------------------------------------------------------------- the witness

  lemma {:induction false} LineCons(q: Line, step: LineStep, rest: seq<LineStep>)
    requires LineEnabled(q, step) && LineLegal(LineApply(q, step), rest)
    ensures LineLegal(q, [step] + rest) && LineExec(q, [step] + rest) == LineExec(LineApply(q, step), rest)
  {
    hide LineEnabled;
    hide LineApply;
    assert ([step] + rest)[1..] == rest;
  }

  /** A request waits for its session while an older listener of the queue, closing, still receives there. */
  ghost predicate OldListenerReceives(q: Line, l: nat, id: string) {
    && q.demux.router.session && q.held.None? && q.taken == |q.sent| && id !in q.dropped
    && OnQueue(q, l) && q.demux.router.all[l].subscribed && !ReceiverReleased(q.demux.router.all[l])
    && l !in q.demux.processing && l < |q.demux.completed|
    && id in q.demux.router.fate && q.demux.router.fate[id].Waiting? && q.demux.router.fate[id].listener != l
    && AsksQueue(q, id)
  }

  /** Its reply, if it comes then, is completed and dropped. */
  lemma {:induction false} ReplyIsMissed(q: Line, l: nat, id: string, message: Message)
    requires OldListenerReceives(q, l, id)
    ensures
      var steps := [Send(Incoming(Some(id), message)), HandOut(l), Completes(l, true)];
      LineLegal(q, steps) && id in LineExec(q, steps).dropped
  {
    var m := Incoming(Some(id), message);
    var send, out, completes := Send(m), HandOut(l), Completes(l, true);
    assert LineEnabled(q, send);
    var q1 := LineApply(q, send);
    assert q1.sent[q1.taken] == m && LineEnabled(q1, out);
    assert Settlement(q1.demux.router, l, m.id).Completed?;
    var q2 := LineApply(q1, out);
    assert q2.demux.processing[l] == m && q2.demux.router == q.demux.router && q2.held == Some(l);
    assert LineEnabled(q2, completes);
    CompletesMisses(q2, l);
    assert Missed(q2, l, m) == {id};
    hide LineApply;
    hide LineEnabled;
    LineCons(q2, completes, []);
    LineCons(q1, out, [completes]);
    LineCons(q, send, [out] + [completes]);
    assert [send] + ([out] + [completes]) == [send, out, completes];
  }

  /** A request that opens a session and stops waiting, and the next one, on the same queue. */
  function TwoRequests(queue: string, a: string, b: string): seq<Step> {
    [Wait(queue, a), OpenResumes(0, Goes), SessionSettles(0, Goes), StopWaiting(0, a), Wait(queue, b)]
  }

  lemma {:induction false} TwoRequestsRun(queue: string, a: string, b: string)
    requires a != b
    ensures Legal(Empty(true), TwoRequests(queue, a, b))
    ensures
      var r := Exec(Empty(true), TwoRequests(queue, a, b));
      && |r.all| == 2 && r.session && r.all[0].replyTo == queue && r.all[1].replyTo == queue
      && r.all[0].subscribed && !ReceiverReleased(r.all[0])
      && b in r.fate && r.fate[b] == Waiting(1)
  {
    var r1, r2 := AfterFirst(queue, a);
    var r3, r4 := AfterStop(queue, a, b, r2);
    var r5 := Apply(r4, Wait(queue, b));
    assert r5.all[0] == r4.all[0] && b in r5.fate && r5.fate[b] == Waiting(1);
    assert r5.all[1].replyTo == queue && r5.session && |r5.all| == 2;
    hide Apply;
    hide Enabled;
    RouterCons(r4, Wait(queue, b), []);
    RouterCons(r3, StopWaiting(0, a), [Wait(queue, b)]);
    RouterCons(r2, SessionSettles(0, Goes), [StopWaiting(0, a)] + [Wait(queue, b)]);
    var rest := [SessionSettles(0, Goes)] + ([StopWaiting(0, a)] + [Wait(queue, b)]);
    RouterCons(r1, OpenResumes(0, Goes), rest);
    RouterCons(Empty(true), Wait(queue, a), [OpenResumes(0, Goes)] + rest);
    assert [Wait(queue, a)] + ([OpenResumes(0, Goes)] + rest) == TwoRequests(queue, a, b);
  }

  lemma {:induction false} RouterCons(r: Router, step: Step, rest: seq<Step>)
    requires Enabled(r, step) && Legal(Apply(r, step), rest)
    ensures Legal(r, [step] + rest) && Exec(r, [step] + rest) == Exec(Apply(r, step), rest)
  {
    hide Enabled;
    hide Apply;
    assert ([step] + rest)[1..] == rest;
  }

  function Requested(queue: string, a: string, opening: Opening): Listener {
    Listener(queue, [a], false, false, false, false, opening, NotClosing, 0)
  }

  lemma {:induction false} AfterFirst(queue: string, a: string) returns (r1: Router, r2: Router)
    ensures Enabled(Empty(true), Wait(queue, a)) && r1 == Apply(Empty(true), Wait(queue, a))
    ensures Enabled(r1, OpenResumes(0, Goes)) && r2 == Apply(r1, OpenResumes(0, Goes))
    ensures |r2.all| == 1 && r2.all[0] == Requested(queue, a, Acquiring) && r2.session
    ensures r2.listeners == map[queue := 0] && r2.fate == map[a := Waiting(0)]
  {
    r1 := Apply(Empty(true), Wait(queue, a));
    assert [] + [a] == [a];
    assert r1.all[0] == Requested(queue, a, AwaitingPrevious(None));
    r2 := Apply(r1, OpenResumes(0, Goes));
  }

  lemma {:induction false} AfterStop(queue: string, a: string, b: string, r2: Router) returns (r3: Router, r4: Router)
    requires a != b && |r2.all| == 1 && r2.all[0] == Requested(queue, a, Acquiring) && r2.session
    requires r2.listeners == map[queue := 0] && r2.fate == map[a := Waiting(0)]
    ensures Enabled(r2, SessionSettles(0, Goes)) && r3 == Apply(r2, SessionSettles(0, Goes))
    ensures Enabled(r3, StopWaiting(0, a)) && r4 == Apply(r3, StopWaiting(0, a))
    ensures |r4.all| == 1 && r4.all[0].replyTo == queue && r4.all[0].subscribed && !ReceiverReleased(r4.all[0])
    ensures r4.session && queue !in r4.listeners && b !in r4.fate
  {
    r3 := Apply(r2, SessionSettles(0, Goes));
    assert r3.all[0] == Requested(queue, a, Opened).(receiver := true, subscribed := true);
    assert [a][1..] == [] && Recent.Without([a][1..], a) == [];
    r4 := Apply(r3, StopWaiting(0, a));
    assert r4.all[0].waiters == [];
  }

  /** The queue follows a run of the router that hands out nothing. */
  lemma {:induction false} FollowRouter(q: Line, steps: seq<Step>)
    requires LineInv(q) && q.sent == [] && Legal(q.demux.router, steps)
    requires forall i :: 0 <= i < |steps| && steps[i].Wait? ==> HasRequestIdShape(steps[i].id)
    ensures
      var others := Others(steps);
      && LineLegal(q, others)
      && var e := LineExec(q, others);
      && LineInv(e) && e == q.(demux := e.demux) && e.demux.processing == q.demux.processing
      && e.demux.router == Exec(q.demux.router, steps)
    decreases |steps|
  {
    hide HasRequestIdShape;
    if steps != [] {
      var e := LineApply(q, Other(Route(steps[0])));
      LineStepKeeps(q, Other(Route(steps[0])));
      RouteParts(q.demux, steps[0]);
      hide LineInv;
      hide Apply;
      hide Enabled;
      FollowRouter(e, steps[1..]);
      LineCons(q, Other(Route(steps[0])), Others(steps[1..]));
    }
  }

  function Others(steps: seq<Step>): seq<LineStep> {
    if steps == [] then [] else [Other(Route(steps[0]))] + Others(steps[1..])
  }

  /** It happens with sessions, when a request follows on one that has just ended. */
  lemma {:induction false} OldListenerCanReceive(queue: string, a: string, b: string)
    requires a != b && HasRequestIdShape(a) && HasRequestIdShape(b)
    ensures
      var steps := Others(TwoRequests(queue, a, b));
      && LineLegal(EmptyQueue(queue, true), steps)
      && OldListenerReceives(LineExec(EmptyQueue(queue, true), steps), 0, b)
  {
    var q, steps := EmptyQueue(queue, true), Others(TwoRequests(queue, a, b));
    EmptyInv(true);
    hide Inv;
    TwoRequestsRun(queue, a, b);
    FollowRouter(q, TwoRequests(queue, a, b));
    var e := LineExec(q, steps);
    DemuxCovers(e.demux);
    HomeKnown(e.demux, b);
    hide DemuxInv;
    hide LineExec;
    hide LineLegal;
    hide Exec;
    hide Legal;
    hide HasRequestIdShape;
  }
}
