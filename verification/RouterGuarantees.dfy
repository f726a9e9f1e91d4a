/** What every run of the router guarantees. */
module RouterGuarantees {
  import opened RouterModel
  import opened RouterInvariant
  import Recent = RecentIds

  /** Whether some run, with or without sessions, reaches `r`. */
  ghost predicate Reachable(r: Router) {
    exists steps :: Legal(Empty(r.session), steps) && Exec(Empty(r.session), steps) == r
  }

  lemma {:induction false} ReachableInv(r: Router)
    requires Reachable(r)
    ensures Inv(r)
  {
    var steps :| Legal(Empty(r.session), steps) && Exec(Empty(r.session), steps) == r;
    EmptyInv(r.session);
    RunKeeps(Empty(r.session), steps);
  }

  // ----------------------------------------------------- no stranded request

  /** A request that waits is on the open, registered listener of its queue. */
  ghost predicate Served(r: Router, id: string)
    requires id in r.fate && r.fate[id].Waiting?
  {
    var l := r.fate[id].listener;
    && l < |r.all| && !r.all[l].closed && id in r.all[l].waiters
    && r.all[l].replyTo in r.listeners && r.listeners[r.all[l].replyTo] == l
    && (r.all[l].subscribed || !r.all[l].opening.Opened?)
  }

  /**
   * No request is stranded: each one still waiting is served by the listener of
   * its queue, which is subscribed or still opening; every other one was stopped
   * by its caller, or failed exactly once. A registered listener is open and
   * waited on, a closed one has no waiter.
   */
  lemma {:induction false} NoStrandedRequest(r: Router)
    requires Reachable(r)
    ensures forall id :: id in r.fate && r.fate[id].Waiting? ==> Served(r, id)
    ensures forall id :: id in r.failures <==> id in r.fate && r.fate[id].Failed?
    ensures Recent.Distinct(r.failures)
    ensures forall q :: q in r.listeners ==>
      r.listeners[q] < |r.all| && !r.all[r.listeners[q]].closed && r.all[r.listeners[q]].waiters != []
    ensures forall i :: 0 <= i < |r.all| && r.all[i].closed ==> r.all[i].waiters == []
  {
    ReachableInv(r);
    forall id | id in r.fate && r.fate[id].Waiting? ensures Served(r, id) {
      var l := r.fate[id].listener;
      assert id in r.all[l].waiters;
      assert Lifecycle(r.all[l]);
    }
    hide SessionOrder;
    hide ClosingMap;
    hide Lifecycles;
  }

  /** The ids remembered as finished are never those of waiting requests. */
  lemma {:induction false} FinishedAreNotWaiting(r: Router, id: string)
    requires Reachable(r) && id in r.finished
    ensures forall i :: 0 <= i < |r.all| ==> id !in r.all[i].waiters
  {
    ReachableInv(r);
  }

  lemma {:induction false} FailListenersCloses(r: Router, ls: seq<nat>, scripts: seq<seq<seq<Stop>>>, i: nat)
    requires Inv(r) && i < |r.all| && forall k :: 0 <= k < |ls| ==> ls[k] < |r.all|
    requires r.all[i].closed || i in ls
    ensures |FailListeners(r, ls, scripts).all| == |r.all| && FailListeners(r, ls, scripts).all[i].closed
    decreases |ls|
  {
    if ls != [] {
      var script := if scripts == [] then [] else scripts[0];
      FailAllKeeps(r, ls[0], script);
      FailAllPhases(r, ls[0], script, i);
      hide Inv;
      FailListenersCloses(FailAll(r, ls[0], script), ls[1..], if scripts == [] then [] else scripts[1..], i);
    }
  }

  lemma {:induction false} FailListenersSize(r: Router, ls: seq<nat>, scripts: seq<seq<seq<Stop>>>)
    requires forall k :: 0 <= k < |ls| ==> ls[k] < |r.all|
    ensures |FailListeners(r, ls, scripts).all| == |r.all|
    decreases |ls|
  {
    if ls != [] {
      FailListenersSize(FailAll(r, ls[0], if scripts == [] then [] else scripts[0]), ls[1..],
                        if scripts == [] then [] else scripts[1..]);
    }
  }

  lemma {:induction false} RegisteredCovers(r: Router, from: nat, i: nat)
    requires from <= i < |r.all|
    requires r.all[i].replyTo in r.listeners && r.listeners[r.all[i].replyTo] == i
    ensures i in Registered(r, from)
    decreases |r.all| - from
  {
    if from < i { RegisteredCovers(r, from + 1, i); }
  }

  /** `close()` leaves no request waiting, even when failing one request stops others. */
  lemma {:induction false} CloseFailsEveryone(r: Router, scripts: seq<seq<seq<Stop>>>)
    requires Reachable(r)
    ensures
      var s := Apply(r, CloseRouter(scripts));
      && s.listeners == map[]
      && forall id :: id in s.fate ==> !s.fate[id].Waiting?
  {
    ReachableInv(r);
    FailListenersKeeps(r, Registered(r, 0), scripts);
    EveryListenerCloses(r, scripts);
    hide FailListeners;
    hide Inv;
    AllClosed(FailListeners(r, Registered(r, 0), scripts));
  }

  lemma {:induction false} EveryListenerCloses(r: Router, scripts: seq<seq<seq<Stop>>>)
    requires Inv(r)
    ensures
      var s := FailListeners(r, Registered(r, 0), scripts);
      |s.all| == |r.all| && forall i :: 0 <= i < |r.all| ==> s.all[i].closed
  {
    var ls := Registered(r, 0);
    var s := FailListeners(r, ls, scripts);
    FailListenersSize(r, ls, scripts);
    forall i | 0 <= i < |r.all| ensures s.all[i].closed {
      OpenIsRegistered(r, i);
      hide Inv;
      if !r.all[i].closed { RegisteredCovers(r, 0, i); }
      FailListenersCloses(r, ls, scripts, i);
    }
    hide FailListeners;
  }

  lemma {:induction false} OpenIsRegistered(r: Router, l: nat)
    requires Inv(r) && l < |r.all|
    ensures !r.all[l].closed ==> r.all[l].replyTo in r.listeners && r.listeners[r.all[l].replyTo] == l
  {
    hide SessionOrder;
    hide ClosingMap;
    hide Ledger;
    hide Lifecycles;
  }

  lemma {:induction false} AllClosed(r: Router)
    requires Inv(r) && forall i :: 0 <= i < |r.all| ==> r.all[i].closed
    ensures r.listeners == map[]
    ensures forall id :: id in r.fate ==> !r.fate[id].Waiting?
  {
    hide SessionOrder;
    hide ClosingMap;
    hide Lifecycles;
    WaitersListed(r);
    assert r.listeners.Keys == {};
  }

  lemma {:induction false} WaitersListed(r: Router)
    requires Inv(r)
    ensures forall id :: id in r.fate && r.fate[id].Waiting? ==>
      r.fate[id].listener < |r.all| && id in r.all[r.fate[id].listener].waiters
  {
    hide Registration;
    hide SessionOrder;
    hide ClosingMap;
    hide Lifecycles;
  }

  // ---------------------------------------------------------------- sessions

  /** The listener has the session's lock, or has asked for it, and has not released it. */
  predicate HoldsOrAcquires(x: Listener) {
    x.opening.Acquiring? || (x.receiver && !ReceiverReleased(x))
  }

  /**
   * With sessions, at most one listener of a queue holds or asks for the
   * session, and their closings settle in the order the listeners were opened.
   */
  lemma {:induction false} SessionIsExclusive(r: Router, i: nat, j: nat)
    requires Reachable(r) && r.session
    requires i < j < |r.all| && r.all[i].replyTo == r.all[j].replyTo
    ensures !(HoldsOrAcquires(r.all[i]) && HoldsOrAcquires(r.all[j]))
    ensures r.all[j].closing.Settled? ==> r.all[i].closing.Settled?
  {
    ReachableInv(r);
    assert Ordered(r, i, j);
    assert Lifecycle(r.all[i]) && Lifecycle(r.all[j]);
  }

  /**
   * With sessions, the closings `close()` awaits are enough: when they settle,
   * so did every other listener of their queues, and no queue is missing.
   */
  lemma {:induction false} ClosingsAwaitedCoverAll(r: Router, i: nat)
    requires Reachable(r) && r.session && i < |r.all| && r.all[i].closed && !r.all[i].closing.Settled?
    ensures r.all[i].replyTo in r.closing && i <= r.closing[r.all[i].replyTo] < |r.all|
    ensures !r.all[r.closing[r.all[i].replyTo]].closing.Settled?
    ensures r.all[r.closing[r.all[i].replyTo]].replyTo == r.all[i].replyTo
  {
    ReachableInv(r);
  }

  // --------------------------------------------------------------- receivers

  /**
   * Every receiver is closed exactly once when its listener closes, whatever the
   * order of opening and closing; a subscribed receiver's retries are aborted
   * only once its close() settled, and those of one still opening at once.
   */
  lemma {:induction false} ReceiverClosedOnce(r: Router, l: nat)
    requires Reachable(r) && l < |r.all|
    ensures r.all[l].closeCalls <= 1
    ensures r.all[l].closeCalls == 1 ==> r.all[l].receiver && r.all[l].closed
    ensures r.all[l].closing.Settled? ==> r.all[l].closeCalls == if r.all[l].receiver then 1 else 0
    ensures r.all[l].closing.Settled? ==> r.all[l].aborted && r.all[l].opening.Opened?
    ensures r.all[l].subscribed && r.all[l].aborted ==> ReceiverReleased(r.all[l])
    ensures r.all[l].closed && !r.all[l].receiver ==> r.all[l].aborted
  {
    ReachableInv(r);
    assert Lifecycle(r.all[l]);
  }

  /** subscribe() is called on an open listener only, with a signal nobody aborted. */
  lemma {:induction false} SubscribesOpenListenersOnly(r: Router, step: Step, l: nat)
    requires Reachable(r) && Enabled(r, step) && l < |r.all| && l < |Apply(r, step).all|
    requires !r.all[l].subscribed && Apply(r, step).all[l].subscribed
    ensures (step.OpenResumes? || step.SessionSettles?) && step.listener == l
    ensures !r.all[l].closed && !r.all[l].aborted && r.all[l].closeCalls == 0
  {
    if step.OpenResumes? || step.SessionSettles? {
      ReachableInv(r);
      assert Lifecycle(r.all[l]);
      hide Inv;
    } else {
      OtherStepsSubscribeNothing(r, step, l);
    }
  }

  lemma {:induction false} OtherStepsSubscribeNothing(r: Router, step: Step, l: nat)
    requires Enabled(r, step) && l < |r.all| && !step.OpenResumes? && !step.SessionSettles?
    ensures l < |Apply(r, step).all| && Apply(r, step).all[l].subscribed == r.all[l].subscribed
  {
    hide FailAll;
    hide FailListeners;
    hide WaitIn;
    hide StopWaitingIn;
    hide Settle;
    hide CloseResumesIn;
    hide ReceiverClosesIn;
    match step {
      case OpenFails(m, script) => FailAllSubscribed(r, m, script, l);
      case FatalError(m, script) => FailAllSubscribed(r, m, script, l);
      case CloseRouter(scripts) => FailListenersSubscribed(r, Registered(r, 0), scripts, l);
      case Wait(_, _) => WaitSubscribesNothing(r, step.replyTo, step.id, l);
      case StopWaiting(m, id) => StopWaitingSubscribesNothing(r, m, id, l);
      case CloseResumes(m) => CloseResumesSubscribesNothing(r, m, l);
      case ReceiverCloses(m, ok) => ReceiverClosesSubscribesNothing(r, m, ok, l);
      case SubscriptionCloses(m) => SettleSubscribesNothing(r, m, l);
    }
  }

  lemma {:induction false} SettleSubscribesNothing(r: Router, m: nat, l: nat)
    requires l < |r.all| && m < |r.all|
    ensures |Settle(r, m).all| == |r.all| && Settle(r, m).all[l].subscribed == r.all[l].subscribed
  {
  }

  lemma {:induction false} CloseResumesSubscribesNothing(r: Router, m: nat, l: nat)
    requires l < |r.all| && m < |r.all|
    ensures |CloseResumesIn(r, m).all| == |r.all| && CloseResumesIn(r, m).all[l].subscribed == r.all[l].subscribed
  {
    SettleSubscribesNothing(Put(r, m, r.all[m].(aborted := true)), m, l);
    hide Settle;
  }

  lemma {:induction false} ReceiverClosesSubscribesNothing(r: Router, m: nat, ok: bool, l: nat)
    requires l < |r.all| && m < |r.all|
    ensures |ReceiverClosesIn(r, m, ok).all| == |r.all|
    ensures ReceiverClosesIn(r, m, ok).all[l].subscribed == r.all[l].subscribed
  {
    SettleSubscribesNothing(Put(r, m, r.all[m].(aborted := true)), m, l);
    hide Settle;
  }

  lemma {:induction false} WaitSubscribesNothing(r: Router, replyTo: string, id: string, l: nat)
    requires Enabled(r, Wait(replyTo, id)) && l < |r.all|
    ensures l < |WaitIn(r, replyTo, id).all| && WaitIn(r, replyTo, id).all[l].subscribed == r.all[l].subscribed
  {
  }

  lemma {:induction false} StopWaitingSubscribesNothing(r: Router, m: nat, id: string, l: nat)
    requires l < |r.all|
    ensures |StopWaitingIn(r, m, id).all| == |r.all|
    ensures StopWaitingIn(r, m, id).all[l].subscribed == r.all[l].subscribed
  {
    hide CloseListener;
    hide Recent.Without;
    hide Recent.Added;
  }

  lemma {:induction false} StopAllSubscribed(r: Router, stops: seq<Stop>, l: nat)
    requires l < |r.all|
    ensures |StopAll(r, stops).all| == |r.all|
    ensures StopAll(r, stops).all[l].subscribed == r.all[l].subscribed
    decreases |stops|
  {
    if stops != [] {
      StopWaitingSubscribesNothing(r, stops[0].listener, stops[0].id, l);
      StopAllSubscribed(StopWaitingIn(r, stops[0].listener, stops[0].id), stops[1..], l);
    }
  }

  lemma {:induction false} FailEachSubscribed(r: Router, ids: seq<string>, script: seq<seq<Stop>>, l: nat)
    requires l < |r.all|
    ensures |FailEach(r, ids, script).all| == |r.all|
    ensures FailEach(r, ids, script).all[l].subscribed == r.all[l].subscribed
    decreases |ids|
  {
    if ids != [] {
      var stops := if script == [] then [] else script[0];
      StopAllSubscribed(Fail(r, ids[0]), stops, l);
      FailEachSubscribed(StopAll(Fail(r, ids[0]), stops), ids[1..], if script == [] then [] else script[1..], l);
    }
  }

  lemma {:induction false} FailAllSubscribed(r: Router, m: nat, script: seq<seq<Stop>>, l: nat)
    requires l < |r.all| && m < |r.all|
    ensures FailAll(r, m, script).all[l].subscribed == r.all[l].subscribed
  {
    FailEachSubscribed(Clear(r, m), r.all[m].waiters, script, l);
  }

  lemma {:induction false} FailListenersSubscribed(r: Router, ls: seq<nat>, scripts: seq<seq<seq<Stop>>>, l: nat)
    requires l < |r.all| && forall i :: 0 <= i < |ls| ==> ls[i] < |r.all|
    ensures |FailListeners(r, ls, scripts).all| == |r.all|
    ensures FailListeners(r, ls, scripts).all[l].subscribed == r.all[l].subscribed
    decreases |ls|
  {
    if ls != [] {
      var script := if scripts == [] then [] else scripts[0];
      FailAllSubscribed(r, ls[0], script, l);
      FailListenersSubscribed(FailAll(r, ls[0], script), ls[1..], if scripts == [] then [] else scripts[1..], l);
    }
  }
}
