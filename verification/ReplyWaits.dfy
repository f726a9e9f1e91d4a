/**
 * When a request can rely on its replies before it is sent: it can miss one, in
 * some run, exactly when a closing listener of its queue still receives as it
 * starts to wait. That takes sessions, and a closing that is still under way.
 */
module ReplyWaits {
  import opened Values
  import opened ReplyCodec
  import opened RouterModel
  import opened RouterInvariant
  import opened ReplyDelivery
  import opened ReplyDemux
  import opened ReplyQueue
  import RouterGuarantees
  import Progress = RouterProgress

  /** The SDK may still hand the listener's receiver a message. */
  predicate Receives(x: Listener) {
    x.subscribed && !ReceiverReleased(x)
  }

  /** A closing listener of the queue still receives. */
  ghost predicate OldOneReceives(r: Router, queue: string) {
    exists l :: 0 <= l < |r.all| && r.all[l].replyTo == queue && r.all[l].closed && Receives(r.all[l])
  }

  /** No listener of the queue but `home` receives, or ever will. */
  ghost predicate OnlyHomeReceives(r: Router, queue: string, home: nat) {
    forall l :: 0 <= l < |r.all| && r.all[l].replyTo == queue && l != home ==>
      r.all[l].closed && !Receives(r.all[l])
  }

  // ---------------------------------------------------------- the router alone

  /** A waiting request's listener is open and registered. */
  lemma {:induction false} HomeIsRegistered(r: Router, id: string)
    requires Inv(r) && id in r.fate && r.fate[id].Waiting?
    ensures
      var l := r.fate[id].listener;
      && l < |r.all| && !r.all[l].closed
      && r.all[l].replyTo in r.listeners && r.listeners[r.all[l].replyTo] == l
  {
    assert id in r.all[r.fate[id].listener].waiters;
  }

  /** A listener that is closed and does not receive stays so. */
  lemma {:induction false} StaysSilent(r: Router, step: Step, l: nat)
    requires Inv(r) && Enabled(r, step) && l < |r.all| && r.all[l].closed && !Receives(r.all[l])
    ensures
      l < |Apply(r, step).all|
      && var y := Apply(r, step).all[l];
      y.replyTo == r.all[l].replyTo && y.closed && !Receives(y)
  {
    hide Inv;
    hide Apply;
    hide Enabled;
    Progress.InvOpenOnes(r);
    Progress.StepForward(r, step);
    assert Progress.Follows(r.all[l], Apply(r, step).all[l]);
    if !r.all[l].subscribed {
      if step.OpenResumes? || step.SessionSettles? {
        ClosedSubscribesNothing(r, step, l);
      } else {
        RouterGuarantees.OtherStepsSubscribeNothing(r, step, l);
      }
    }
  }

  lemma {:induction false} ClosedSubscribesNothing(r: Router, step: Step, l: nat)
    requires Inv(r) && Enabled(r, step) && (step.OpenResumes? || step.SessionSettles?)
    requires l < |r.all| && r.all[l].closed
    ensures l < |Apply(r, step).all| && Apply(r, step).all[l].subscribed == r.all[l].subscribed
  {
    hide Inv;
  }

  /** A new listener is of another queue while a request waits on this one. */
  lemma {:induction false} NewIsElsewhere(r: Router, step: Step, home: nat, l: nat)
    requires Inv(r) && Enabled(r, step) && home < |r.all| && |r.all| <= l < |Apply(r, step).all|
    requires r.all[home].replyTo in r.listeners
    ensures Apply(r, step).all[l].replyTo != r.all[home].replyTo
  {
    if step.Wait? {
      hide Inv;
    } else {
      Progress.OthersOpenNothing(r, step);
      hide Apply;
    }
  }

  lemma {:induction false} StepKeepsHome(r: Router, step: Step, queue: string, home: nat)
    requires Inv(r) && Enabled(r, step) && OnlyHomeReceives(r, queue, home)
    requires home < |r.all| && r.all[home].replyTo == queue && queue in r.listeners
    ensures OnlyHomeReceives(Apply(r, step), queue, home)
  {
    var s := Apply(r, step);
    hide Inv;
    hide Apply;
    hide Enabled;
    hide Receives;
    RouterFrame(r, step);
    forall l | 0 <= l < |s.all| && s.all[l].replyTo == queue && l != home
      ensures s.all[l].closed && !Receives(s.all[l])
    {
      if l < |r.all| { StaysSilent(r, step, l); } else { NewIsElsewhere(r, step, home, l); }
    }
  }

  /** A request that starts to wait, on the open listener of its queue or on a new one. */
  lemma {:induction false} WaitFindsHome(r: Router, queue: string, id: string)
    requires Inv(r) && Enabled(r, Wait(queue, id))
    ensures
      var s := Apply(r, Wait(queue, id));
      && id in s.fate && s.fate[id].Waiting?
      && var home := s.fate[id].listener;
      && home < |s.all| && s.all[home].replyTo == queue && (home < |r.all| ==> !r.all[home].closed)
      && |r.all| <= |s.all| <= |r.all| + 1 && s.session == r.session && (home < |r.all| ==> |s.all| == |r.all|)
      && (|s.all| > |r.all| ==> home == |r.all|)
      && (forall l :: 0 <= l < |r.all| && l != home ==> s.all[l] == r.all[l])
      && (forall l :: 0 <= l < |r.all| && r.all[l].replyTo == queue && !r.all[l].closed ==> l == home)
  {
    if queue in r.listeners { assert !r.all[r.listeners[queue]].closed; }
    hide SessionOrder;
    hide ClosingMap;
    hide Lifecycles;
    hide Ledger;
  }

  lemma {:induction false} WaitAlone(r: Router, queue: string, id: string)
    requires Inv(r) && Enabled(r, Wait(queue, id)) && !OldOneReceives(r, queue)
    ensures
      var s := Apply(r, Wait(queue, id));
      id in s.fate && s.fate[id].Waiting? && OnlyHomeReceives(s, queue, s.fate[id].listener)
  {
    WaitFindsHome(r, queue, id);
    hide Inv;
    hide Apply;
    hide Enabled;
    hide Receives;
  }

  /** Once no closing of the queue is under way, no old listener receives. */
  lemma {:induction false} NoneClosingNoneReceives(r: Router, queue: string)
    requires Inv(r) && r.session && queue !in r.closing
    ensures !OldOneReceives(r, queue)
  {
    hide Registration;
    hide ClosingMap;
    hide Ledger;
    hide Lifecycles;
    hide Ordered;
  }

  // -------------------------------------------------------------- never missed

  /** The request has missed nothing, and no other listener can take its replies. */
  ghost predicate Undisturbed(q: Line, id: string) {
    && id in q.demux.router.fate && id !in q.dropped
    && (q.demux.router.fate[id].Waiting? ==>
          && OnlyHomeReceives(q.demux.router, q.queue, q.demux.router.fate[id].listener)
          && OnQueue(q, q.demux.router.fate[id].listener)
          && HeldAtHome(q, id))
  }

  /** A reply of the request that is being completed is being completed where it waits. */
  predicate HeldAtHome(q: Line, id: string)
    requires id in q.demux.router.fate
  {
    q.held.Some? && q.held.value in q.demux.processing && q.demux.processing[q.held.value].id == Some(id) ==>
      q.demux.router.fate[id] == Waiting(q.held.value)
  }

  lemma {:induction false} HandOutUndisturbed(q: Line, l: nat, id: string)
    requires LineInv(q) && LineEnabled(q, HandOut(l)) && Undisturbed(q, id)
    ensures Undisturbed(LineApply(q, HandOut(l)), id)
  {
    hide LineInv;
    hide Settlement;
  }

  lemma {:induction false} CompletesUndisturbed(q: Line, l: nat, ok: bool, id: string)
    requires LineInv(q) && LineEnabled(q, Completes(l, ok)) && Undisturbed(q, id)
    ensures Undisturbed(LineApply(q, Completes(l, ok)), id)
  {
    hide LineInv;
    hide OnlyHomeReceives;
  }

  lemma {:induction false} AsideUndisturbed(q: Line, step: DemuxStep, id: string)
    requires LineInv(q) && LineEnabled(q, Other(step)) && !step.Route? && Undisturbed(q, id)
    ensures Undisturbed(LineApply(q, Other(step)), id)
  {
    hide LineInv;
    hide LineApply;
    hide LineEnabled;
    hide DemuxApply;
    hide DemuxEnabled;
    hide OnlyHomeReceives;
    AsideIs(q, step);
    AsideProcessing(q, step);
    HeldOnQueue(q);
  }

  lemma {:induction false} HeldOnQueue(q: Line)
    requires LineInv(q)
    ensures q.held.Some? ==> OnQueue(q, q.held.value) && q.held.value in q.demux.processing
    ensures Covers(q.demux) && DemuxInv(q.demux) && Inv(q.demux.router)
  {
    DemuxCovers(q.demux);
    hide DemuxInv;
    hide Inv;
    hide AllInLine;
  }

  lemma {:induction false} RouteUndisturbed(q: Line, step: Step, id: string)
    requires LineInv(q) && LineEnabled(q, Other(Route(step))) && Undisturbed(q, id)
    ensures Undisturbed(LineApply(q, Other(Route(step))), id)
  {
    hide LineInv;
    hide LineApply;
    hide LineEnabled;
    hide DemuxInv;
    hide RouteIn;
    hide Receives;
    hide Inv;
    hide Apply;
    hide Enabled;
    hide OnlyHomeReceives;
    RouteIs(q, step);
    RouteParts(q.demux, step);
    HeldOnQueue(q);
    RouterFrame(q.demux.router, step);
    if q.demux.router.fate[id].Waiting? {
      HomeIsRegistered(q.demux.router, id);
      StepKeepsHome(q.demux.router, step, q.queue, q.demux.router.fate[id].listener);
    }
  }

  lemma {:induction false} LineStepUndisturbed(q: Line, step: LineStep, id: string)
    requires LineInv(q) && LineEnabled(q, step) && Undisturbed(q, id)
    ensures Undisturbed(LineApply(q, step), id)
  {
    hide LineInv;
    hide Undisturbed;
    hide LineApply;
    hide LineEnabled;
    match step {
      case Send(_) => QueueUndisturbed(q, step, id);
      case HandOut(l) => HandOutUndisturbed(q, l, id);
      case Completes(l, ok) => CompletesUndisturbed(q, l, ok, id);
      case OtherTakes => QueueUndisturbed(q, step, id);
      case Other(s) => if s.Route? { RouteUndisturbed(q, s.step, id); } else { AsideUndisturbed(q, s, id); }
    }
  }

  lemma {:induction false} QueueUndisturbed(q: Line, step: LineStep, id: string)
    requires LineEnabled(q, step) && (step.Send? || step.OtherTakes?) && Undisturbed(q, id)
    ensures Undisturbed(LineApply(q, step), id)
  {
    hide OnlyHomeReceives;
  }

  lemma {:induction false} LineRunUndisturbed(q: Line, steps: seq<LineStep>, id: string)
    requires LineInv(q) && LineLegal(q, steps) && Undisturbed(q, id)
    ensures Undisturbed(LineExec(q, steps), id)
    decreases |steps|
  {
    hide LineInv;
    hide Undisturbed;
    if steps != [] {
      LineStepKeeps(q, steps[0]);
      LineStepUndisturbed(q, steps[0], id);
      hide LineApply;
      hide LineEnabled;
      LineRunUndisturbed(LineApply(q, steps[0]), steps[1..], id);
    }
  }

  /** The queue once the request has started to wait. */
  function Asked(q: Line, id: string): Line
    requires LineEnabled(q, Other(Route(Wait(q.queue, id))))
  {
    LineApply(q, Other(Route(Wait(q.queue, id))))
  }

  lemma {:induction false} StartsUndisturbed(q: Line, id: string)
    requires LineInv(q) && LineEnabled(q, Other(Route(Wait(q.queue, id))))
    requires !OldOneReceives(q.demux.router, q.queue)
    ensures Undisturbed(Asked(q, id), id)
  {
    RouteIs(q, Wait(q.queue, id));
    RouteParts(q.demux, Wait(q.queue, id));
    HeldOnQueue(q);
    WaitAlone(q.demux.router, q.queue, id);
    WaitFindsHome(q.demux.router, q.queue, id);
    HeldIsOld(q, id);
    hide LineInv;
    hide LineApply;
    hide LineEnabled;
    hide DemuxInv;
    hide Inv;
    hide RouteIn;
    hide Apply;
    hide Enabled;
    hide OnlyHomeReceives;
    hide OldOneReceives;
  }

  /** What is being completed was sent before, so it is not the request's; nor has the request missed anything. */
  lemma {:induction false} HeldIsOld(q: Line, id: string)
    requires LineInv(q) && Unsent(q, id) && id !in q.demux.router.fate
    ensures q.held.Some? && q.held.value in q.demux.processing ==> q.demux.processing[q.held.value].id != Some(id)
    ensures id !in q.dropped
  {
    hide DemuxInv;
    hide AllInLine;
  }

  // ------------------------------------------------------------ can be missed

  /** Some run from here makes the request miss a reply while it waits. */
  ghost predicate CanMiss(q: Line, id: string) {
    exists steps :: LineLegal(q, steps) && id in LineExec(q, steps).dropped
  }

  /** With sessions, an old listener that receives, and a request waiting elsewhere nothing was sent for. */
  ghost predicate Threatened(q: Line, l: nat, id: string) {
    && LineInv(q) && q.demux.router.session
    && OnQueue(q, l) && Receives(q.demux.router.all[l])
    && id in q.demux.router.fate && q.demux.router.fate[id].Waiting? && q.demux.router.fate[id].listener != l
    && AsksQueue(q, id) && id !in q.dropped && Unsent(q, id)
  }

  lemma {:induction false} AndThen(q: Line, step: LineStep, id: string)
    requires LineEnabled(q, step) && CanMiss(LineApply(q, step), id)
    ensures CanMiss(q, id)
  {
    hide LineEnabled;
    hide LineApply;
    var rest :| LineLegal(LineApply(q, step), rest) && id in LineExec(LineApply(q, step), rest).dropped;
    LineCons(q, step, rest);
  }

  lemma {:induction false} HandOutFrame(q: Line, l: nat)
    requires OnQueue(q, l) && q.held.None? && q.taken < |q.sent| && q.demux.router.session
    requires Receives(q.demux.router.all[l]) && l !in q.demux.processing
    ensures LineEnabled(q, HandOut(l))
    ensures LineApply(q, HandOut(l))
      == q.(demux := q.demux.(processing := q.demux.processing[l := q.sent[q.taken]]), held := Some(l))
  {
  }

  lemma {:induction false} CompleteFrame(q: Line, l: nat)
    requires LineEnabled(q, Completes(l, true))
    ensures l in q.demux.processing
    ensures
      var e := LineApply(q, Completes(l, true));
      && e.demux.router == q.demux.router && e.demux.windows == q.demux.windows && e.queue == q.queue
      && e.sent == q.sent && e.taken == q.taken + 1 && e.held.None?
      && e.dropped == q.dropped + Missed(q, l, q.demux.processing[l])
  {
    hide Missed;
  }

  /** The old listener is handed the next message, and completes it: with sessions every one. */
  lemma {:induction false} TakeNext(q: Line, l: nat, id: string)
    requires Threatened(q, l, id) && q.held.None? && q.taken < |q.sent|
    ensures LineEnabled(q, HandOut(l))
    ensures
      var e := LineApply(q, HandOut(l));
      Threatened(e, l, id) && e.held == Some(l) && e.sent == q.sent && e.taken == q.taken
  {
    hide LineInv;
    hide LineApply;
    hide LineEnabled;
    hide Receives;
    FreeListener(q, l);
    HandOutFrame(q, l);
    LineStepKeeps(q, HandOut(l));
  }

  lemma {:induction false} FreeListener(q: Line, l: nat)
    requires LineInv(q) && OnQueue(q, l) && q.held.None?
    ensures l !in q.demux.processing && l < |q.demux.completed|
  {
    DemuxCovers(q.demux);
    hide DemuxInv;
    hide Inv;
    hide AllInLine;
  }

  /** The message that is being completed is; it is not the request's. */
  lemma {:induction false} CompleteHeld(q: Line, l: nat, id: string)
    requires Threatened(q, l, id) && q.held.Some?
    ensures LineEnabled(q, Completes(q.held.value, true))
    ensures
      var e := LineApply(q, Completes(q.held.value, true));
      Threatened(e, l, id) && e.held.None? && e.sent == q.sent && e.taken == q.taken + 1 <= |q.sent|
  {
    hide LineInv;
    hide LineApply;
    hide LineEnabled;
    hide Receives;
    HeldCanComplete(q, id);
    CompleteFrame(q, q.held.value);
    LineStepKeeps(q, Completes(q.held.value, true));
  }

  lemma {:induction false} HeldCanComplete(q: Line, id: string)
    requires LineInv(q) && q.held.Some? && Unsent(q, id)
    ensures LineEnabled(q, Completes(q.held.value, true)) && q.taken < |q.sent|
    ensures q.held.value in q.demux.processing && q.demux.processing[q.held.value].id != Some(id)
  {
    DemuxCovers(q.demux);
    hide DemuxInv;
    hide Inv;
    hide AllInLine;
  }

  /** Once the queue is empty, the request's reply is handed to the old listener. */
  lemma {:induction false} EmptyCanMiss(q: Line, l: nat, id: string)
    requires Threatened(q, l, id) && q.taken == |q.sent| && q.held.None?
    ensures CanMiss(q, id)
  {
    hide LineInv;
    hide LineLegal;
    hide LineExec;
    FreeListener(q, l);
    ReplyIsMissed(q, l, id, Message("", Unset, false, Undefined));
  }

  lemma {:induction false} ThreatenedCanMiss(q: Line, l: nat, id: string)
    requires Threatened(q, l, id) && q.taken <= |q.sent|
    ensures CanMiss(q, id)
    decreases |q.sent| - q.taken, q.held.None?
  {
    hide *;
    if q.held.Some? {
      CompleteHeld(q, l, id);
      ThreatenedCanMiss(LineApply(q, Completes(q.held.value, true)), l, id);
      AndThen(q, Completes(q.held.value, true), id);
    } else if q.taken < |q.sent| {
      TakeNext(q, l, id);
      ThreatenedCanMiss(LineApply(q, HandOut(l)), l, id);
      AndThen(q, HandOut(l), id);
    } else {
      EmptyCanMiss(q, l, id);
    }
  }

  lemma {:induction false} StartsThreatened(q: Line, id: string) returns (l: nat)
    requires LineInv(q) && LineEnabled(q, Other(Route(Wait(q.queue, id))))
    requires q.demux.router.session && OldOneReceives(q.demux.router, q.queue)
    ensures Threatened(Asked(q, id), l, id) && Asked(q, id).taken <= |Asked(q, id).sent|
  {
    hide LineInv;
    hide LineApply;
    hide LineEnabled;
    hide DemuxInv;
    hide Inv;
    hide RouteIn;
    hide Apply;
    hide Enabled;
    hide Receives;
    l :| 0 <= l < |q.demux.router.all| && q.demux.router.all[l].replyTo == q.queue
         && q.demux.router.all[l].closed && Receives(q.demux.router.all[l]);
    AskedFrame(q, id);
    WaitFindsHome(q.demux.router, q.queue, id);
    LineStepKeeps(q, Other(Route(Wait(q.queue, id))));
    AskedIsHome(Asked(q, id), id);
  }

  lemma {:induction false} AskedFrame(q: Line, id: string)
    requires LineInv(q) && LineEnabled(q, Other(Route(Wait(q.queue, id))))
    ensures Inv(q.demux.router) && Enabled(q.demux.router, Wait(q.queue, id))
    ensures
      var e := Asked(q, id);
      && e.demux.router == Apply(q.demux.router, Wait(q.queue, id)) && e.queue == q.queue
      && e.sent == q.sent && e.dropped == q.dropped
    ensures id !in q.dropped && Unsent(q, id)
  {
    hide LineInv;
    hide LineApply;
    hide LineEnabled;
    hide Apply;
    RouteIs(q, Wait(q.queue, id));
    RouteParts(q.demux, Wait(q.queue, id));
    HeldOnQueue(q);
    HeldIsOld(q, id);
  }

  lemma {:induction false} AskedIsHome(q: Line, id: string)
    requires LineInv(q) && id in q.demux.router.fate && q.demux.router.fate[id].Waiting?
    ensures id in q.demux.windows && q.demux.windows[id].home == q.demux.router.fate[id].listener
    ensures q.taken <= |q.sent|
  {
    DemuxCovers(q.demux);
    HomeKnown(q.demux, id);
    hide DemuxInv;
    hide Inv;
    hide AllInLine;
  }

  // ------------------------------------------------------------- guarantees

  /**
   * The exact condition, known before the request is sent: in some run it misses
   * a reply while it waits if and only if, with sessions, a closing listener of
   * its queue still receives as it starts to wait.
   */
  lemma {:induction false} CanMissExactly(q: Line, id: string)
    requires ReplyQueue.Reachable(q) && LineEnabled(q, Other(Route(Wait(q.queue, id))))
    ensures CanMiss(Asked(q, id), id) <==> q.demux.router.session && OldOneReceives(q.demux.router, q.queue)
  {
    ReplyQueue.ReachableInv(q);
    if q.demux.router.session && OldOneReceives(q.demux.router, q.queue) {
      var l := StartsThreatened(q, id);
      ThreatenedCanMiss(Asked(q, id), l, id);
    } else if q.demux.router.session {
      NeverMisses(q, id);
    } else {
      WithoutSessions(q, id);
    }
    hide *;
  }

  lemma {:induction false} NeverMisses(q: Line, id: string)
    requires LineInv(q) && LineEnabled(q, Other(Route(Wait(q.queue, id))))
    requires !OldOneReceives(q.demux.router, q.queue)
    ensures !CanMiss(Asked(q, id), id)
  {
    StartsUndisturbed(q, id);
    LineStepKeeps(q, Other(Route(Wait(q.queue, id))));
    hide LineInv;
    hide LineApply;
    hide LineEnabled;
    forall steps | LineLegal(Asked(q, id), steps) ensures id !in LineExec(Asked(q, id), steps).dropped {
      LineRunUndisturbed(Asked(q, id), steps, id);
    }
    hide LineExec;
    hide LineLegal;
  }

  lemma {:induction false} WithoutSessions(q: Line, id: string)
    requires LineInv(q) && LineEnabled(q, Other(Route(Wait(q.queue, id)))) && !q.demux.router.session
    ensures !CanMiss(Asked(q, id), id)
  {
    LineStepKeeps(q, Other(Route(Wait(q.queue, id))));
    RouteIs(q, Wait(q.queue, id));
    RouteParts(q.demux, Wait(q.queue, id));
    HeldOnQueue(q);
    RouterFrame(q.demux.router, Wait(q.queue, id));
    hide LineInv;
    hide LineApply;
    hide LineEnabled;
    hide DemuxInv;
    hide Inv;
    hide RouteIn;
    forall steps | LineLegal(Asked(q, id), steps) ensures id !in LineExec(Asked(q, id), steps).dropped {
      LineRunKeeps(Asked(q, id), steps);
      SessionNeverChanges(Asked(q, id), steps);
      NoneMissed(LineExec(Asked(q, id), steps));
    }
    hide LineExec;
    hide LineLegal;
  }

  lemma {:induction false} SessionNeverChanges(q: Line, steps: seq<LineStep>)
    requires LineInv(q) && LineLegal(q, steps)
    ensures LineExec(q, steps).demux.router.session == q.demux.router.session
    decreases |steps|
  {
    if steps != [] {
      LineStepKeeps(q, steps[0]);
      SessionKept(q, steps[0]);
      hide LineInv;
      hide LineApply;
      hide LineEnabled;
      SessionNeverChanges(LineApply(q, steps[0]), steps[1..]);
    }
  }

  lemma {:induction false} SessionKept(q: Line, step: LineStep)
    requires LineInv(q) && LineEnabled(q, step)
    ensures LineApply(q, step).demux.router.session == q.demux.router.session
  {
    HeldOnQueue(q);
    hide LineInv;
    match step {
      case Other(s) =>
        if s.Route? {
          RouteIs(q, s.step);
          RouteParts(q.demux, s.step);
          RouterFrame(q.demux.router, s.step);
        } else {
          AsideIs(q, s);
          AsideParts(q.demux, s);
        }
        hide DemuxApply;
        hide LineApply;
      case _ =>
    }
    hide Inv;
    hide DemuxInv;
  }

  /**
   * So a request that starts to wait when no closing of its queue is under way
   * gets every reply, in order: in every run from there it has got all that left
   * the queue as long as it waits, and a prefix of them afterwards.
   */
  lemma {:induction false} RepliesAreSafe(q: Line, id: string, steps: seq<LineStep>)
    requires ReplyQueue.Reachable(q) && LineEnabled(q, Other(Route(Wait(q.queue, id))))
    requires q.queue !in q.demux.router.closing
    requires LineLegal(Asked(q, id), steps)
    ensures
      var e := LineExec(Asked(q, id), steps);
      && id !in e.dropped && id in e.demux.replies && id in e.demux.router.fate && e.taken <= |e.sent|
      && e.demux.replies[id] <= For(id, e.sent[..e.taken])
      && (e.demux.router.fate[id].Waiting? ==> e.demux.replies[id] == For(id, e.sent[..e.taken]))
  {
    ReplyQueue.ReachableInv(q);
    if q.demux.router.session { NoneClosing(q); }
    CanMissExactly(q, id);
    LineStepKeeps(q, Other(Route(Wait(q.queue, id))));
    LineRunKeeps(Asked(q, id), steps);
    StaysAsked(q, id, steps);
    assert !CanMiss(Asked(q, id), id);
    var e := LineExec(Asked(q, id), steps);
    assert id !in e.dropped;
    hide *;
    GotAll(e, id);
  }

  lemma {:induction false} NoneClosing(q: Line)
    requires LineInv(q) && q.demux.router.session && q.queue !in q.demux.router.closing
    ensures !OldOneReceives(q.demux.router, q.queue)
  {
    DemuxCovers(q.demux);
    NoneClosingNoneReceives(q.demux.router, q.queue);
    hide DemuxInv;
    hide Inv;
  }

  lemma {:induction false} GotAll(q: Line, id: string)
    requires LineInv(q) && AsksQueue(q, id) && id !in q.dropped
    ensures id in q.demux.replies && id in q.demux.router.fate && q.taken <= |q.sent|
    ensures q.demux.replies[id] <= For(id, q.sent[..q.taken])
    ensures q.demux.router.fate[id].Waiting? ==> q.demux.replies[id] == For(id, q.sent[..q.taken])
  {
    DemuxCovers(q.demux);
    assert InLine(q, id);
    hide DemuxInv;
    hide Inv;
    hide For;
  }

  /** A request of the queue stays one. */
  lemma {:induction false} StaysAsked(q: Line, id: string, steps: seq<LineStep>)
    requires LineInv(q) && LineEnabled(q, Other(Route(Wait(q.queue, id)))) && LineLegal(Asked(q, id), steps)
    ensures AsksQueue(LineExec(Asked(q, id), steps), id)
  {
    RouteIs(q, Wait(q.queue, id));
    RouteParts(q.demux, Wait(q.queue, id));
    HeldOnQueue(q);
    WaitFindsHome(q.demux.router, q.queue, id);
    LineStepKeeps(q, Other(Route(Wait(q.queue, id))));
    AskedIsHome(Asked(q, id), id);
    hide LineInv;
    hide LineApply;
    hide LineEnabled;
    hide DemuxInv;
    hide Inv;
    hide RouteIn;
    hide Apply;
    hide Enabled;
    assert AsksQueue(Asked(q, id), id);
    AsksOn(Asked(q, id), steps, id);
  }

  lemma {:induction false} AsksOn(q: Line, steps: seq<LineStep>, id: string)
    requires LineInv(q) && LineLegal(q, steps) && AsksQueue(q, id)
    ensures AsksQueue(LineExec(q, steps), id)
    decreases |steps|
  {
    if steps != [] {
      LineStepKeeps(q, steps[0]);
      AsksStep(q, steps[0], id);
      hide LineInv;
      hide LineApply;
      hide LineEnabled;
      hide AsksQueue;
      AsksOn(LineApply(q, steps[0]), steps[1..], id);
    }
  }

  lemma {:induction false} AsksStep(q: Line, step: LineStep, id: string)
    requires LineInv(q) && LineEnabled(q, step) && AsksQueue(q, id)
    ensures AsksQueue(LineApply(q, step), id)
  {
    hide LineInv;
    hide LineApply;
    hide LineEnabled;
    match step {
      case Other(s) => if s.Route? { AsksRoute(q, s.step, id); } else { AsksAside(q, s, id); }
      case _ => AsksOwn(q, step, id);
    }
  }

  lemma {:induction false} AsksOwn(q: Line, step: LineStep, id: string)
    requires LineEnabled(q, step) && !step.Other? && AsksQueue(q, id)
    ensures AsksQueue(LineApply(q, step), id)
  {
    hide Settlement;
  }

  lemma {:induction false} AsksRoute(q: Line, step: Step, id: string)
    requires LineInv(q) && LineEnabled(q, Other(Route(step))) && AsksQueue(q, id)
    ensures AsksQueue(LineApply(q, Other(Route(step))), id)
  {
    hide LineInv;
    hide LineApply;
    hide LineEnabled;
    hide RouteIn;
    hide DemuxInv;
    hide Inv;
    RouteIs(q, step);
    HeldOnQueue(q);
    RouteFrame(q.demux, step);
  }

  lemma {:induction false} AsksAside(q: Line, step: DemuxStep, id: string)
    requires LineEnabled(q, Other(step)) && !step.Route? && AsksQueue(q, id)
    ensures AsksQueue(LineApply(q, Other(step)), id)
  {
    hide LineApply;
    hide LineEnabled;
    hide DemuxApply;
    AsideIs(q, step);
    AsideParts(q.demux, step);
  }
}
