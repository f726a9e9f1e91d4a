/**
 * No closing of the router waits for ever on another: of the listeners of a
 * queue that wait for each other's sessions, one can always go on, and each
 * goes on finitely often.
 */
module RouterProgress {
  import opened Values
  import opened RouterModel
  import opened RouterInvariant
  import opened RouterGuarantees
  import Recent = RecentIds

  // ------------------------------------------------------------------ ranks

  /** How many steps the opening of a listener may still take. */
  function OpeningRank(opening: Opening): nat {
    match opening
    case AwaitingPrevious(_) => 3
    case Acquiring => 2
    case Failing => 1
    case Opened => 0
  }

  /** How many steps its closing may still take. */
  function ClosingRank(closing: Closing): nat {
    match closing
    case NotClosing => 4
    case AwaitingOpened => 3
    case ClosingReceiver => 2
    case ClosingSubscription => 1
    case Settled => 0
  }

  function Rank(x: Listener): nat {
    OpeningRank(x.opening) + ClosingRank(x.closing)
  }

  /** `y` is `x` some steps later: it only moved forward. */
  predicate Follows(x: Listener, y: Listener) {
    && y.replyTo == x.replyTo && (x.closed ==> y.closed)
    && (!y.closed ==> y.closing.NotClosing?)
    && OpeningRank(y.opening) <= OpeningRank(x.opening) && ClosingRank(y.closing) <= ClosingRank(x.closing)
    && (y.opening.AwaitingPrevious? ==> y.opening == x.opening)
  }

  ghost predicate Forward(r: Router, s: Router) {
    |r.all| <= |s.all| && forall i :: 0 <= i < |r.all| ==> Follows(r.all[i], s.all[i])
  }

  /** An open listener has not started to close. */
  ghost predicate OpenOnes(r: Router) {
    forall i :: 0 <= i < |r.all| && !r.all[i].closed ==> r.all[i].closing.NotClosing?
  }

  lemma {:induction false} ForwardOn(r: Router, s: Router, t: Router)
    requires Forward(r, s) && Forward(s, t)
    ensures Forward(r, t)
  {
  }

  lemma {:induction false} ForwardOpen(r: Router, s: Router)
    requires Forward(r, s) && |s.all| == |r.all|
    ensures OpenOnes(s)
  {
  }

  // ------------------------------------------------- every step goes forward

  lemma {:induction false} CloseListenerForward(r: Router, l: nat)
    requires OpenOnes(r) && l < |r.all|
    ensures Forward(r, CloseListener(r, l))
  {
    var s := CloseListener(r, l);
    forall i | 0 <= i < |r.all| ensures Follows(r.all[i], s.all[i]) {
      assert i != l ==> s.all[i] == r.all[i];
    }
  }

  lemma {:induction false} StopWaitingForward(r: Router, l: nat, id: string)
    requires OpenOnes(r)
    ensures Forward(r, StopWaitingIn(r, l, id)) && |StopWaitingIn(r, l, id).all| == |r.all|
  {
    hide CloseListener;
    hide Recent.Without;
    hide Recent.Added;
    if l < |r.all| && id in r.all[l].waiters {
      var next := Leave(r, l, id);
      assert Forward(r, next);
      CloseListenerForward(next, l);
      ForwardOn(r, next, CloseListener(next, l));
    }
  }

  lemma {:induction false} StopAllForward(r: Router, stops: seq<Stop>)
    requires OpenOnes(r)
    ensures Forward(r, StopAll(r, stops)) && |StopAll(r, stops).all| == |r.all|
    decreases |stops|
  {
    hide StopWaitingIn;
    hide Follows;
    if stops != [] {
      var next := StopWaitingIn(r, stops[0].listener, stops[0].id);
      StopWaitingForward(r, stops[0].listener, stops[0].id);
      ForwardOpen(r, next);
      StopAllForward(next, stops[1..]);
      ForwardOn(r, next, StopAll(r, stops));
    } else {
      Still(r, r);
    }
  }

  /** The listeners are as they were. */
  lemma {:induction false} Still(r: Router, s: Router)
    requires OpenOnes(r) && s.all == r.all
    ensures Forward(r, s) && OpenOnes(s)
  {
  }

  lemma {:induction false} SameListeners(r: Router, s: Router, t: Router)
    requires Forward(r, s) && t.all == s.all
    ensures Forward(r, t)
  {
  }

  lemma {:induction false} FailEachForward(r: Router, ids: seq<string>, script: seq<seq<Stop>>)
    requires OpenOnes(r)
    ensures Forward(r, FailEach(r, ids, script)) && |FailEach(r, ids, script).all| == |r.all|
    decreases |ids|
  {
    hide StopAll;
    hide Follows;
    if ids != [] {
      var stops := if script == [] then [] else script[0];
      var failed := Fail(r, ids[0]);
      var next := StopAll(failed, stops);
      Still(r, failed);
      StopAllForward(failed, stops);
      ForwardOn(r, failed, next);
      ForwardOpen(r, next);
      FailEachForward(next, ids[1..], if script == [] then [] else script[1..]);
      ForwardOn(r, next, FailEach(r, ids, script));
    } else {
      Still(r, r);
    }
  }

  lemma {:induction false} FailAllForward(r: Router, l: nat, script: seq<seq<Stop>>)
    requires OpenOnes(r) && l < |r.all|
    ensures Forward(r, FailAll(r, l, script))
  {
    var cleared := Clear(r, l);
    var failed := FailEach(cleared, r.all[l].waiters, script);
    assert Forward(r, cleared) && OpenOnes(cleared);
    FailEachForward(cleared, r.all[l].waiters, script);
    hide Follows;
    hide FailEach;
    ForwardOn(r, cleared, failed);
    ForwardOpen(r, failed);
    CloseListenerForward(failed, l);
    ForwardOn(r, failed, CloseListener(failed, l));
  }

  lemma {:induction false} FailListenersForward(r: Router, ls: seq<nat>, scripts: seq<seq<seq<Stop>>>)
    requires OpenOnes(r) && forall i :: 0 <= i < |ls| ==> ls[i] < |r.all|
    ensures Forward(r, FailListeners(r, ls, scripts))
    decreases |ls|
  {
    hide FailAll;
    hide Follows;
    if ls != [] {
      var script := if scripts == [] then [] else scripts[0];
      var next := FailAll(r, ls[0], script);
      FailAllForward(r, ls[0], script);
      ForwardOpen(r, next);
      FailListenersForward(next, ls[1..], if scripts == [] then [] else scripts[1..]);
      ForwardOn(r, next, FailListeners(r, ls, scripts));
    } else {
      Still(r, r);
    }
  }

  /** The listener a step of one of the two coroutines belongs to. */
  predicate IsCoroutineStep(step: Step, l: nat) {
    match step
    case OpenResumes(m, _) => m == l
    case SessionSettles(m, _) => m == l
    case OpenFails(m, _) => m == l
    case CloseResumes(m) => m == l
    case ReceiverCloses(m, _) => m == l
    case SubscriptionCloses(m) => m == l
    case _ => false
  }

  lemma {:induction false} PutForward(r: Router, l: nat, y: Listener)
    requires OpenOnes(r) && l < |r.all| && Follows(r.all[l], y)
    ensures Forward(r, Put(r, l, y))
  {
    hide OpeningRank;
    hide ClosingRank;
  }

  lemma {:induction false} OpenFailsForward(r: Router, l: nat, script: seq<seq<Stop>>)
    requires OpenOnes(r) && Enabled(r, OpenFails(l, script))
    ensures Forward(r, OpenFailsIn(r, l, script))
    ensures OpenFailsIn(r, l, script).all[l].opening.Opened?
  {
    var next := if r.all[l].closed then r else FailAll(r, l, script);
    if r.all[l].closed { Still(r, r); } else { FailAllForward(r, l, script); }
    hide FailAll;
    ForwardOpen(r, next);
    PutForward(next, l, next.all[l].(opening := Opened));
    ForwardOn(r, next, OpenFailsIn(r, l, script));
  }

  lemma {:induction false} ClosingStepForward(r: Router, step: Step)
    requires OpenOnes(r) && Enabled(r, step)
    requires step.CloseResumes? || step.ReceiverCloses? || step.SubscriptionCloses?
    ensures |Apply(r, step).all| == |r.all|
    ensures Forward(r, Apply(r, step)) && Rank(Apply(r, step).all[step.listener]) < Rank(r.all[step.listener])
  {
    hide ForgetClosing;
    var l := step.listener;
    assert r.all[l].closed;
    var y := Apply(r, step).all[l];
    assert Apply(r, step).all == Put(r, l, y).all;
    PutForward(r, l, y);
    hide Apply;
    hide Follows;
    SameListeners(r, Put(r, l, y), Apply(r, step));
  }

  lemma {:induction false} OpeningStepForward(r: Router, step: Step)
    requires OpenOnes(r) && Enabled(r, step) && (step.OpenResumes? || step.SessionSettles?)
    ensures |Apply(r, step).all| == |r.all|
    ensures Forward(r, Apply(r, step)) && Rank(Apply(r, step).all[step.listener]) < Rank(r.all[step.listener])
  {
    PutForward(r, step.listener, Apply(r, step).all[step.listener]);
  }

  lemma {:induction false} WaitForward(r: Router, replyTo: string, id: string)
    requires OpenOnes(r) && Enabled(r, Wait(replyTo, id))
    ensures Forward(r, WaitIn(r, replyTo, id))
  {
  }

  lemma {:induction false} InvOpenOnes(r: Router)
    requires Inv(r)
    ensures OpenOnes(r)
  {
    forall i | 0 <= i < |r.all| && !r.all[i].closed ensures r.all[i].closing.NotClosing? {
      assert Lifecycle(r.all[i]);
    }
  }

  /**
   * No step moves any listener backward, and a step of a listener's opening or
   * closing moves that one forward: each takes at most seven.
   */
  lemma {:induction false} StepsGoForward(r: Router, step: Step)
    requires Reachable(r) && Enabled(r, step)
    ensures Forward(r, Apply(r, step))
    ensures forall l: nat :: IsCoroutineStep(step, l) ==>
      l < |r.all| && l < |Apply(r, step).all| && Rank(Apply(r, step).all[l]) < Rank(r.all[l]) <= 7
  {
    ReachableInv(r);
    InvOpenOnes(r);
    hide Inv;
    StepForward(r, step);
  }

  lemma {:induction false} StepForward(r: Router, step: Step)
    requires OpenOnes(r) && Enabled(r, step)
    ensures Forward(r, Apply(r, step))
    ensures forall l: nat :: IsCoroutineStep(step, l) ==>
      l < |r.all| && l < |Apply(r, step).all| && Rank(Apply(r, step).all[l]) < Rank(r.all[l]) <= 7
  {
    hide FailAll;
    hide FailListeners;
    hide StopWaitingIn;
    hide WaitIn;
    hide OpenFailsIn;
    match step {
      case Wait(replyTo, id) => WaitForward(r, replyTo, id);
      case StopWaiting(l, id) => StopWaitingForward(r, l, id);
      case OpenResumes(_, _) => OpeningStepForward(r, step);
      case SessionSettles(_, _) => OpeningStepForward(r, step);
      case OpenFails(l, script) => OpenFailsForward(r, l, script);
      case CloseResumes(_) => ClosingStepForward(r, step);
      case ReceiverCloses(_, _) => ClosingStepForward(r, step);
      case SubscriptionCloses(_) => ClosingStepForward(r, step);
      case FatalError(l, script) => if r.all[l].closed { Still(r, r); } else { FailAllForward(r, l, script); }
      case CloseRouter(scripts) => FailListenersForward(r, Registered(r, 0), scripts);
    }
  }

  // ------------------------------------------------- how a closing settles

  /** Closings only start; none of those under way moves. */
  ghost predicate OnlyStarts(r: Router, s: Router) {
    && |r.all| <= |s.all|
    && (forall i :: 0 <= i < |r.all| ==>
          s.all[i].closing == r.all[i].closing || (s.all[i].closing.AwaitingOpened? && !r.all[i].closed))
    && (forall i :: 0 <= i < |r.all| && r.all[i].closed ==> s.all[i].closed)
    && (forall i :: |r.all| <= i < |s.all| ==> s.all[i].closing.NotClosing? && !s.all[i].closed)
  }

  lemma {:induction false} OnlyStartsOn(r: Router, s: Router, t: Router)
    requires OnlyStarts(r, s) && OnlyStarts(s, t) && |t.all| == |s.all| == |r.all|
    ensures OnlyStarts(r, t)
  {
  }

  lemma {:induction false} CloseListenerOnlyStarts(r: Router, l: nat)
    requires l < |r.all|
    ensures OnlyStarts(r, CloseListener(r, l))
  {
  }

  lemma {:induction false} StopWaitingOnlyStarts(r: Router, l: nat, id: string)
    ensures OnlyStarts(r, StopWaitingIn(r, l, id)) && |StopWaitingIn(r, l, id).all| == |r.all|
  {
    hide CloseListener;
    hide Recent.Without;
    hide Recent.Added;
    if l < |r.all| && id in r.all[l].waiters {
      CloseListenerOnlyStarts(Leave(r, l, id), l);
      OnlyStartsOn(r, Leave(r, l, id), CloseListener(Leave(r, l, id), l));
    }
  }

  lemma {:induction false} StopAllOnlyStarts(r: Router, stops: seq<Stop>)
    ensures OnlyStarts(r, StopAll(r, stops)) && |StopAll(r, stops).all| == |r.all|
    decreases |stops|
  {
    hide StopWaitingIn;
    if stops != [] {
      var next := StopWaitingIn(r, stops[0].listener, stops[0].id);
      StopWaitingOnlyStarts(r, stops[0].listener, stops[0].id);
      StopAllOnlyStarts(next, stops[1..]);
      OnlyStartsOn(r, next, StopAll(r, stops));
    }
  }

  lemma {:induction false} FailEachOnlyStarts(r: Router, ids: seq<string>, script: seq<seq<Stop>>)
    ensures OnlyStarts(r, FailEach(r, ids, script)) && |FailEach(r, ids, script).all| == |r.all|
    decreases |ids|
  {
    hide StopAll;
    if ids != [] {
      var stops := if script == [] then [] else script[0];
      var next := StopAll(Fail(r, ids[0]), stops);
      StopAllOnlyStarts(Fail(r, ids[0]), stops);
      OnlyStartsOn(r, Fail(r, ids[0]), next);
      FailEachOnlyStarts(next, ids[1..], if script == [] then [] else script[1..]);
      OnlyStartsOn(r, next, FailEach(r, ids, script));
    }
  }

  lemma {:induction false} FailAllOnlyStarts(r: Router, l: nat, script: seq<seq<Stop>>)
    requires l < |r.all|
    ensures OnlyStarts(r, FailAll(r, l, script)) && |FailAll(r, l, script).all| == |r.all|
  {
    var failed := FailEach(Clear(r, l), r.all[l].waiters, script);
    FailEachOnlyStarts(Clear(r, l), r.all[l].waiters, script);
    hide FailEach;
    hide CloseListener;
    OnlyStartsOn(r, Clear(r, l), failed);
    CloseListenerOnlyStarts(failed, l);
    OnlyStartsOn(r, failed, CloseListener(failed, l));
  }

  lemma {:induction false} FailListenersOnlyStarts(r: Router, ls: seq<nat>, scripts: seq<seq<seq<Stop>>>)
    requires forall i :: 0 <= i < |ls| ==> ls[i] < |r.all|
    ensures OnlyStarts(r, FailListeners(r, ls, scripts)) && |FailListeners(r, ls, scripts).all| == |r.all|
    decreases |ls|
  {
    hide FailAll;
    if ls != [] {
      var script := if scripts == [] then [] else scripts[0];
      FailAllOnlyStarts(r, ls[0], script);
      FailListenersOnlyStarts(FailAll(r, ls[0], script), ls[1..], if scripts == [] then [] else scripts[1..]);
      OnlyStartsOn(r, FailAll(r, ls[0], script), FailListeners(r, ls, scripts));
    }
  }

  lemma {:induction false} OpenFailsOnlyStarts(r: Router, l: nat, script: seq<seq<Stop>>)
    requires l < |r.all|
    ensures OnlyStarts(r, OpenFailsIn(r, l, script))
  {
    var next := if r.all[l].closed then r else FailAll(r, l, script);
    if !r.all[l].closed { FailAllOnlyStarts(r, l, script); }
    hide FailAll;
    OnlyStartsOn(r, next, OpenFailsIn(r, l, script));
  }

  /** Every step but those of a closing's own coroutine. */
  lemma {:induction false} StepOnlyStarts(r: Router, step: Step)
    requires Enabled(r, step) && !step.CloseResumes? && !step.ReceiverCloses? && !step.SubscriptionCloses?
    ensures OnlyStarts(r, Apply(r, step))
  {
    hide FailAll;
    hide FailListeners;
    hide StopWaitingIn;
    hide OpenFailsIn;
    match step {
      case StopWaiting(l, id) => StopWaitingOnlyStarts(r, l, id);
      case OpenFails(l, script) => OpenFailsOnlyStarts(r, l, script);
      case FatalError(l, script) => if !r.all[l].closed { FailAllOnlyStarts(r, l, script); }
      case CloseRouter(scripts) => FailListenersOnlyStarts(r, Registered(r, 0), scripts);
      case _ =>
    }
  }

  // ------------------------------------------------------------ no deadlock

  /** A listener only ever awaits an older one of its queue, which is closing. */
  ghost predicate AwaitsOlder(all: seq<Listener>, j: nat)
    requires j < |all|
  {
    all[j].opening.AwaitingPrevious? && all[j].opening.previous.Some? ==>
      var p := all[j].opening.previous.value;
      p < j && all[p].replyTo == all[j].replyTo && all[p].closed
  }

  ghost predicate Chained(r: Router) {
    forall j :: 0 <= j < |r.all| ==> AwaitsOlder(r.all, j)
  }

  lemma {:induction false} ForwardChained(r: Router, s: Router)
    requires Chained(r) && Forward(r, s)
    ensures forall j :: 0 <= j < |r.all| ==> AwaitsOlder(s.all, j)
  {
    hide OpeningRank;
    hide ClosingRank;
    forall j | 0 <= j < |r.all| ensures AwaitsOlder(s.all, j) {
      assert AwaitsOlder(r.all, j) && Follows(r.all[j], s.all[j]);
      var opening := s.all[j].opening;
      if opening.AwaitingPrevious? && opening.previous.Some? {
        assert Follows(r.all[opening.previous.value], s.all[opening.previous.value]);
      }
    }
  }

  /** A new listener awaits the closing its queue's map names. */
  lemma {:induction false} NewListenerChained(r: Router, replyTo: string, id: string)
    requires ClosingMap(r) && Enabled(r, Wait(replyTo, id))
    ensures
      var s := WaitIn(r, replyTo, id);
      |r.all| <= |s.all| && forall j :: |r.all| <= j < |s.all| ==> AwaitsOlder(s.all, j)
  {
  }

  lemma {:induction false} OthersOpenNothing(r: Router, step: Step)
    requires Enabled(r, step) && !step.Wait?
    ensures |Apply(r, step).all| == |r.all|
  {
    match step {
      case StopWaiting(m, id) => StopAllSize(r, [Stop(m, id)]);
      case CloseRouter(scripts) => FailListenersSize(r, Registered(r, 0), scripts);
      case _ =>
    }
    hide FailAll;
    hide FailListeners;
  }

  lemma {:induction false} ChainedStep(r: Router, step: Step)
    requires Inv(r) && Chained(r) && Enabled(r, step)
    ensures Chained(Apply(r, step))
  {
    InvOpenOnes(r);
    StepForward(r, step);
    ForwardChained(r, Apply(r, step));
    if step.Wait? { NewListenerChained(r, step.replyTo, step.id); } else { OthersOpenNothing(r, step); }
    hide Inv;
    hide AwaitsOlder;
    hide Forward;
  }

  lemma {:induction false} ChainedRun(r: Router, steps: seq<Step>)
    requires Inv(r) && Chained(r) && Legal(r, steps)
    ensures Chained(Exec(r, steps))
    decreases |steps|
  {
    hide Inv;
    hide Chained;
    if steps != [] {
      StepKeeps(r, steps[0]);
      ChainedStep(r, steps[0]);
      ChainedRun(Apply(r, steps[0]), steps[1..]);
    }
  }

  /**
   * No deadlock, with or without sessions: while a listener is still opening or
   * closing, it or an older one of its queue has a step to take, given that the
   * SDK's calls settle.
   */
  lemma {:induction false} SomeListenerGoesOn(r: Router, l: nat) returns (i: nat, step: Step)
    requires Reachable(r) && l < |r.all|
    requires !r.all[l].opening.Opened? || (r.all[l].closed && !r.all[l].closing.Settled?)
    ensures i <= l && r.all[i].replyTo == r.all[l].replyTo
    ensures IsCoroutineStep(step, i) && Enabled(r, step)
  {
    var steps :| Legal(Empty(r.session), steps) && Exec(Empty(r.session), steps) == r;
    EmptyInv(r.session);
    ChainedRun(Empty(r.session), steps);
    RunKeeps(Empty(r.session), steps);
    hide Exec;
    hide Legal;
    i, step := GoesOn(r, l);
  }

  lemma {:induction false} GoesOn(r: Router, l: nat) returns (i: nat, step: Step)
    requires Inv(r) && Chained(r) && l < |r.all|
    requires !r.all[l].opening.Opened? || (r.all[l].closed && !r.all[l].closing.Settled?)
    ensures i <= l && r.all[i].replyTo == r.all[l].replyTo
    ensures IsCoroutineStep(step, i) && Enabled(r, step)
    decreases l
  {
    assert Lifecycle(r.all[l]) && AwaitsOlder(r.all, l);
    var x := r.all[l];
    i := l;
    match x.opening {
      case AwaitingPrevious(previous) =>
        if PreviousSettled(r, previous) {
          step := OpenResumes(l, Throws);
        } else {
          i, step := GoesOn(r, previous.value);
        }
      case Acquiring => step := SessionSettles(l, Throws);
      case Failing => step := OpenFails(l, []);
      case Opened =>
        step := if x.closing.AwaitingOpened? then CloseResumes(l)
                else if x.closing.ClosingReceiver? then ReceiverCloses(l, true)
                else SubscriptionCloses(l);
    }
  }
}
