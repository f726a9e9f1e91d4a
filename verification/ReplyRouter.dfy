/** The objects of `ReplyRouter`, and how each of its methods changes them. */
module ReplyRouter {
  import opened Outcomes
  import opened Values
  import opened RouterModel
  import opened RouterInvariant
  import opened ReplyDelivery
  import Recent = RecentIds

  /**
   * What the client keeps for a reply queue it reads from: its one receiver and
   * every request whose replies are to come from there.
   */
  class ReplyListener {
    const replyTo: string
    /** Its place in the order of creation. */
    const index: nat
    var waiters: seq<string>
    var closed: bool
    var aborted: bool
    var receiver: bool
    var subscribed: bool
    var opening: Opening
    var closing: Closing
    ghost var closeCalls: nat

    ghost function Snapshot(): Listener
      reads this
    {
      Listener(replyTo, waiters, closed, aborted, receiver, subscribed, opening, closing, closeCalls)
    }

    constructor (replyTo: string, index: nat, previous: Option<nat>)
      ensures this.index == index
      ensures Snapshot() ==
        Listener(replyTo, [], false, false, false, false, AwaitingPrevious(previous), NotClosing, 0)
    {
      this.replyTo, this.index := replyTo, index;
      waiters, closed, aborted, receiver, subscribed := [], false, false, false, false;
      opening, closing, closeCalls := AwaitingPrevious(previous), NotClosing, 0;
    }

    /** `previous` settled: `result` is how the SDK calls that follow end. */
    method OpenResumes(session: bool, result: OpenResult)
      modifies this
      ensures Snapshot() == ResumeOpening(old(Snapshot()), session, result)
    {
      if closed {
        opening := Opened;
      } else if result.Throws? {
        opening := Failing;
      } else if session {
        opening := Acquiring;
      } else {
        Received(result);
      }
    }

    /** `acceptSession()` settled. */
    method SessionSettles(result: OpenResult)
      modifies this
      ensures Snapshot() == SettleSession(old(Snapshot()), result)
    {
      if result.Throws? {
        opening := Failing;
      } else {
        Received(result);
      }
    }

    /** The listener got its receiver: it subscribes, unless it closed meanwhile. */
    method Received(result: OpenResult)
      modifies this
      ensures Snapshot() == Subscribe(old(Snapshot()), result)
    {
      receiver := true;
      if closed {
        opening := Opened;
        return;
      }
      if result.SubscribeThrows? {
        opening := Failing;
      } else {
        subscribed := true;
        opening := Opened;
      }
    }

    /** The flags and the signal of a listener that starts closing. */
    method StartClosing()
      modifies this
      ensures
        var x := old(Snapshot());
        Snapshot() == x.(closed := true, aborted := x.aborted || !x.receiver, closing := AwaitingOpened)
    {
      closed := true;
      if !receiver {
        aborted := true;
      }
      closing := AwaitingOpened;
    }

    /** `waiters.delete(id)` */
    method DeleteWaiter(id: string)
      modifies this`waiters
      ensures waiters == Recent.Without(old(waiters), id)
    {
      var kept := [];
      for i := 0 to |waiters|
        invariant waiters == old(waiters)
        invariant kept + Recent.Without(waiters[i..], id) == Recent.Without(waiters, id)
      {
        assert waiters[i..][1..] == waiters[i + 1..];
        if waiters[i] != id {
          kept := kept + [waiters[i]];
        }
      }
      waiters := kept;
    }
  }

  /** The listeners a map holds are the ones the model names by their index. */
  ghost predicate Names(m: map<string, ReplyListener>, indices: map<string, nat>, all: seq<ReplyListener>) {
    && m.Keys == indices.Keys
    && forall q :: q in m ==> indices[q] < |all| && m[q] == all[indices[q]]
  }

  lemma {:induction false} NamesRemove(
      m: map<string, ReplyListener>, indices: map<string, nat>, all: seq<ReplyListener>, q: string)
    requires Names(m, indices, all)
    ensures Names(m - {q}, indices - {q}, all)
  {
  }

  lemma {:induction false} NamesSet(
      m: map<string, ReplyListener>, indices: map<string, nat>, all: seq<ReplyListener>, q: string, l: nat)
    requires Names(m, indices, all) && l < |all|
    ensures Names(m[q := all[l]], indices[q := l], all)
  {
  }

  class ReplyRouter {
    const session: bool
    var listeners: map<string, ReplyListener>
    var closing: map<string, ReplyListener>
    const finished: Recent.RecentIds
    /** Every listener created: what the coroutines and the callers still hold. */
    var all: seq<ReplyListener>
    /** The state of the run so far. */
    ghost var model: Router

    /** The objects are in the state of the model. */
    ghost predicate Ties()
      reads this, finished, all
    {
      && model.session == session
      && |all| == |model.all|
      && (forall i :: 0 <= i < |all| ==> all[i].index == i && all[i].Snapshot() == model.all[i])
      && Names(listeners, model.listeners, all)
      && Names(closing, model.closing, all)
      && finished.Valid() && finished.limit == FINISHED_IDS_LIMIT && finished.ids == model.finished
    }

    ghost predicate Valid()
      reads this, finished, all
    {
      Ties() && Inv(model)
    }

    constructor (session: bool)
      ensures Valid() && model == Empty(session) && fresh(finished)
    {
      this.session := session;
      listeners, closing, all := map[], map[], [];
      finished := new Recent.RecentIds(FINISHED_IDS_LIMIT);
      model := Empty(session);
      new;
      EmptyInv(session);
    }

    /** `wait()` */
    method Wait(replyTo: string, id: string)
      requires Valid() && Enabled(model, Step.Wait(replyTo, id))
      modifies this, all
      ensures Valid() && model == Apply(old(model), Step.Wait(replyTo, id))
      ensures |all| >= |old(all)| && all[..|old(all)|] == old(all) && fresh(all[|old(all)|..])
    {
      ghost var next := Apply(model, Step.Wait(replyTo, id));
      StepKeeps(model, Step.Wait(replyTo, id));
      assert next == (
        if replyTo in model.listeners then RouterModel.Join(model, model.listeners[replyTo], id)
        else RouterModel.Join(RouterModel.Open(model, replyTo), |model.all|, id));
      hide Inv;
      hide Apply;
      hide RouterModel.Open;
      hide RouterModel.Join;
      var l := ListenerFor(replyTo);
      Join(l, id);
      assert model == next;
    }

    /** The registered listener of the queue, opened now if there is none. */
    method ListenerFor(replyTo: string) returns (l: nat)
      requires Ties()
      modifies this`listeners, this`all, this`model
      ensures Ties() && l < |all|
      ensures replyTo in old(model.listeners) ==>
        l == old(model.listeners)[replyTo] && model == old(model) && all == old(all)
      ensures replyTo !in old(model.listeners) ==>
        l == |old(all)| && model == RouterModel.Open(old(model), replyTo)
      ensures |all| >= |old(all)| && all[..|old(all)|] == old(all) && fresh(all[|old(all)|..])
      ensures l < |old(all)| || fresh(all[l])
    {
      if replyTo !in listeners {
        Open(replyTo);
      }
      l := listeners[replyTo].index;
    }

    /** `waiters.set(id, waiter)` */
    method Join(l: nat, id: string)
      requires Ties() && l < |all|
      modifies this`model, all[l]
      ensures Ties() && model == RouterModel.Join(old(model), l, id)
    {
      var listener := all[l];
      listener.waiters := listener.waiters + [id];
      model := RouterModel.Join(model, l, id);
    }

    /** `open()`, up to its first await */
    method Open(replyTo: string)
      requires Ties()
      modifies this`listeners, this`all, this`model
      ensures Ties() && model == RouterModel.Open(old(model), replyTo)
      ensures |all| == |old(all)| + 1 && all[..|old(all)|] == old(all)
      ensures fresh(all[|old(all)|]) && replyTo in listeners && listeners[replyTo] == all[|old(all)|]
    {
      var previous := if session && replyTo in closing then Some(closing[replyTo].index) else None;
      var listener := new ReplyListener(replyTo, |all|, previous);
      model := RouterModel.Open(model, replyTo);
      listeners := listeners[replyTo := listener];
      all := all + [listener];
    }

    /** `stopWaiting()` */
    method StopWaiting(l: nat, id: string)
      requires Ties() && l < |all|
      modifies this`listeners, this`closing, this`model, finished, all[l]
      ensures Ties() && model == StopWaitingIn(old(model), l, id)
    {
      var listener := all[l];
      if id !in listener.waiters {
        return;
      }
      listener.DeleteWaiter(id);
      finished.Add(id);
      model := Leave(model, l, id);
      if listener.waiters == [] {
        CloseListener(l);
      }
    }

    /** `closeListener()`, up to its first await */
    method CloseListener(l: nat)
      requires Ties() && l < |all|
      modifies this`listeners, this`closing, this`model, all[l]
      ensures Ties() && model == RouterModel.CloseListener(old(model), l)
    {
      var wasClosed := all[l].closed;
      Unregister(l);
      if !wasClosed {
        StartClosing(l);
      }
    }

    method Unregister(l: nat)
      requires Ties() && l < |all|
      modifies this`listeners, this`model
      ensures Ties() && model == RouterModel.Unregister(old(model), l)
    {
      var listener := all[l];
      NamesRemove(listeners, model.listeners, all, listener.replyTo);
      assert listener.replyTo in listeners ==>
        (listeners[listener.replyTo] == listener <==> model.listeners[listener.replyTo] == l);
      model := RouterModel.Unregister(model, l);
      hide Names;
      if listener.replyTo in listeners && listeners[listener.replyTo] == listener {
        listeners := listeners - {listener.replyTo};
      }
    }

    method StartClosing(l: nat)
      requires Ties() && l < |all|
      modifies this`closing, this`model, all[l]
      ensures Ties() && model == RouterModel.StartClosing(old(model), l)
    {
      var listener := all[l];
      NamesSet(closing, model.closing, all, listener.replyTo, l);
      hide Names;
      listener.StartClosing();
      closing := closing[listener.replyTo := listener];
      model := RouterModel.StartClosing(model, l);
    }

    /** The `stopWaiting()` calls made by one failed request's callback. */
    method RunStops(stops: seq<Stop>)
      requires Ties()
      modifies this`listeners, this`closing, this`model, finished, all
      ensures Ties() && model == StopAll(old(model), stops)
    {
      for i := 0 to |stops|
        invariant Ties() && unchanged(this`all)
        invariant StopAll(model, stops[i..]) == StopAll(old(model), stops)
      {
        assert stops[i..][0] == stops[i] && stops[i..][1..] == stops[i + 1..];
        if stops[i].listener < |all| {
          StopWaiting(stops[i].listener, stops[i].id);
        }
      }
    }

    /** `failAll()`: `script[i]` is what the callback of the i-th request stops. */
    method FailAll(l: nat, script: seq<seq<Stop>>)
      requires Ties() && l < |all|
      modifies this`listeners, this`closing, this`model, finished, all
      ensures Ties() && model == RouterModel.FailAll(old(model), l, script)
    {
      var waiters := ClearWaiters(l);
      FailEachSize(model, waiters, script);
      FailWaiters(waiters, script);
      CloseListener(l);
    }

    method ClearWaiters(l: nat) returns (waiters: seq<string>)
      requires Ties() && l < |all|
      modifies this`model, all[l]
      ensures Ties() && model == Clear(old(model), l) && waiters == old(model.all[l].waiters)
    {
      waiters := all[l].waiters;
      all[l].waiters := [];
      model := Clear(model, l);
    }

    method FailWaiters(waiters: seq<string>, script: seq<seq<Stop>>)
      requires Ties()
      modifies this`listeners, this`closing, this`model, finished, all
      ensures Ties() && model == FailEach(old(model), waiters, script)
    {
      hide Ties;
      for i := 0 to |waiters|
        invariant Ties() && unchanged(this`all)
        invariant FailEach(model, waiters[i..], Rest(script, i)) == FailEach(old(model), waiters, script)
      {
        assert waiters[i..][0] == waiters[i] && waiters[i..][1..] == waiters[i + 1..];
        FailOne(waiters[i], if i < |script| then script[i] else []);
      }
    }

    /** One request is remembered as finished and told; its callback may stop others. */
    method FailOne(id: string, stops: seq<Stop>)
      requires Ties()
      modifies this`listeners, this`closing, this`model, finished, all
      ensures Ties() && model == StopAll(Fail(old(model), id), stops)
    {
      finished.Add(id);
      model := Fail(model, id);
      RunStops(stops);
    }

    // --------------------------------------------- the opening coroutine

    /** `previous` settled, or there was none. */
    method OpenResumes(l: nat, result: OpenResult)
      requires Valid() && Enabled(model, Step.OpenResumes(l, result))
      modifies this`model, all[l]
      ensures Valid() && model == Apply(old(model), Step.OpenResumes(l, result))
    {
      StepKeeps(model, Step.OpenResumes(l, result));
      hide Inv;
      ResumeOpening(l, result);
    }

    method ResumeOpening(l: nat, result: OpenResult)
      requires Ties() && l < |all|
      modifies this`model, all[l]
      ensures Ties() && model == OpenResumesIn(old(model), l, result)
    {
      hide RouterModel.ResumeOpening;
      all[l].OpenResumes(session, result);
      model := OpenResumesIn(model, l, result);
    }

    /** `acceptSession()` settled. */
    method SessionSettles(l: nat, result: OpenResult)
      requires Valid() && Enabled(model, Step.SessionSettles(l, result))
      modifies this`model, all[l]
      ensures Valid() && model == Apply(old(model), Step.SessionSettles(l, result))
    {
      StepKeeps(model, Step.SessionSettles(l, result));
      hide Inv;
      SettleSession(l, result);
    }

    method SettleSession(l: nat, result: OpenResult)
      requires Ties() && l < |all|
      modifies this`model, all[l]
      ensures Ties() && model == SessionSettlesIn(old(model), l, result)
    {
      hide RouterModel.SettleSession;
      all[l].SessionSettles(result);
      model := SessionSettlesIn(model, l, result);
    }

    /** The `catch` of the opening. */
    method OpenFails(l: nat, script: seq<seq<Stop>>)
      requires Valid() && Enabled(model, Step.OpenFails(l, script))
      modifies this`listeners, this`closing, this`model, finished, all
      ensures Valid() && model == Apply(old(model), Step.OpenFails(l, script))
    {
      StepKeeps(model, Step.OpenFails(l, script));
      hide Inv;
      FailOpening(l, script);
    }

    method FailOpening(l: nat, script: seq<seq<Stop>>)
      requires Ties() && l < |all|
      modifies this`listeners, this`closing, this`model, finished, all
      ensures Ties() && model == OpenFailsIn(old(model), l, script)
    {
      hide RouterModel.FailAll;
      if !all[l].closed {
        FailAll(l, script);
      }
      OpeningOver(l);
    }

    method OpeningOver(l: nat)
      requires Ties() && l < |all|
      modifies this`model, all[l]
      ensures Ties() && model == Put(old(model), l, old(model).all[l].(opening := Opened))
    {
      all[l].opening := Opened;
      model := Put(model, l, model.all[l].(opening := Opened));
    }

    // --------------------------------------------- the closing coroutine

    /** `opened` settled: the receiver, if there is one, is closed now. */
    method CloseResumes(l: nat)
      requires Valid() && Enabled(model, Step.CloseResumes(l))
      modifies this`closing, this`model, all[l]
      ensures Valid() && model == Apply(old(model), Step.CloseResumes(l))
    {
      StepKeeps(model, Step.CloseResumes(l));
      ResumeClosing(l);
    }

    method ResumeClosing(l: nat)
      requires Ties() && l < |all|
      modifies this`closing, this`model, all[l]
      ensures Ties() && model == CloseResumesIn(old(model), l)
    {
      hide RouterModel.Settle;
      if all[l].receiver {
        CloseReceiver(l);
      } else {
        AbortAndSettle(l);
      }
    }

    method AbortAndSettle(l: nat)
      requires Ties() && l < |all|
      modifies this`closing, this`model, all[l]
      ensures Ties() && model == Settle(Put(old(model), l, old(model).all[l].(aborted := true)), l)
    {
      Abort(l);
      SettleClosing(l);
    }

    method CloseReceiver(l: nat)
      requires Ties() && l < |all|
      modifies this`model, all[l]
      ensures
        var x := old(model).all[l];
        && Ties()
        && model == Put(old(model), l, x.(closing := ClosingReceiver, closeCalls := x.closeCalls + 1))
    {
      ghost var x := model.all[l];
      all[l].closing := ClosingReceiver;
      all[l].closeCalls := all[l].closeCalls + 1;
      model := Put(model, l, x.(closing := ClosingReceiver, closeCalls := x.closeCalls + 1));
    }

    /** `receiver.close()` settled; only then are the SDK's retries aborted. */
    method ReceiverCloses(l: nat, ok: bool)
      requires Valid() && Enabled(model, Step.ReceiverCloses(l, ok))
      modifies this`closing, this`model, all[l]
      ensures Valid() && model == Apply(old(model), Step.ReceiverCloses(l, ok))
    {
      hide Inv;
      hide RouterModel.Settle;
      StepKeeps(model, Step.ReceiverCloses(l, ok));
      assert Apply(model, Step.ReceiverCloses(l, ok)) == ReceiverClosesIn(model, l, ok);
      hide Apply;
      if ok && all[l].subscribed {
        CloseSubscription(l);
      } else {
        AbortAndSettle(l);
      }
    }

    method CloseSubscription(l: nat)
      requires Ties() && l < |all|
      modifies this`model, all[l]
      ensures
        var x := old(model).all[l];
        Ties() && model == Put(old(model), l, x.(aborted := true, closing := ClosingSubscription))
    {
      ghost var x := model.all[l];
      all[l].aborted := true;
      all[l].closing := ClosingSubscription;
      model := Put(model, l, x.(aborted := true, closing := ClosingSubscription));
    }

    method SubscriptionCloses(l: nat)
      requires Valid() && Enabled(model, Step.SubscriptionCloses(l))
      modifies this`closing, this`model, all[l]
      ensures Valid() && model == Apply(old(model), Step.SubscriptionCloses(l))
    {
      StepKeeps(model, Step.SubscriptionCloses(l));
      assert Apply(model, Step.SubscriptionCloses(l)) == Settle(model, l);
      hide Inv;
      hide Apply;
      hide RouterModel.Settle;
      SettleClosing(l);
    }

    method Abort(l: nat)
      requires Ties() && l < |all|
      modifies this`model, all[l]
      ensures Ties() && model == Put(old(model), l, old(model).all[l].(aborted := true))
    {
      all[l].aborted := true;
      model := Put(model, l, model.all[l].(aborted := true));
    }

    /** The `finally` of the closing: its entry goes, unless a newer closing took it. */
    method SettleClosing(l: nat)
      requires Ties() && l < |all|
      modifies this`closing, this`model, all[l]
      ensures Ties() && model == Settle(old(model), l)
    {
      all[l].closing := Settled;
      model := Put(model, l, model.all[l].(closing := Settled));
      ForgetClosing(l);
    }

    method ForgetClosing(l: nat)
      requires Ties() && l < |all|
      modifies this`closing, this`model
      ensures Ties() && model == RouterModel.ForgetClosing(old(model), l)
    {
      var listener := all[l];
      NamesRemove(closing, model.closing, all, listener.replyTo);
      assert listener.replyTo in closing ==>
        (closing[listener.replyTo] == listener <==> model.closing[listener.replyTo] == l);
      model := RouterModel.ForgetClosing(model, l);
      hide Names;
      if listener.replyTo in closing && closing[listener.replyTo] == listener {
        closing := closing - {listener.replyTo};
      }
    }

    // ------------------------------------------------------------- replies

    /** `processMessage()` up to the settlement call it awaits. */
    method ProcessMessage(l: nat, id: Option<string>) returns (verdict: Verdict)
      requires Ties() && l < |all|
      ensures verdict == Settlement(model, l, id)
    {
      var finishedHere := false;
      if id.Some? {
        finishedHere := finished.Has(id.value);
      }
      var isOwn := session || (id.Some? && id.value in all[l].waiters) || finishedHere;
      if !isOwn {
        if id.None? || !HasRequestIdShape(id.value) {
          return DeadLettered;
        }
        return Abandoned;
      }
      return Completed;
    }

    // ------------------------------------------------- errors and close()

    /** `processError()` with an error that retrying does not fix. */
    method FatalError(l: nat, script: seq<seq<Stop>>)
      requires Valid() && Enabled(model, Step.FatalError(l, script))
      modifies this`listeners, this`closing, this`model, finished, all
      ensures Valid() && model == Apply(old(model), Step.FatalError(l, script))
    {
      StepKeeps(model, Step.FatalError(l, script));
      hide Inv;
      hide RouterModel.FailAll;
      if all[l].closed {
        return;
      }
      FailAll(l, script);
    }

    /** `close()`: the listeners registered when it is called are failed one after another. */
    method Close(scripts: seq<seq<seq<Stop>>>)
      requires Valid()
      modifies this`listeners, this`closing, this`model, finished, all
      ensures Valid() && model == Apply(old(model), Step.CloseRouter(scripts))
    {
      StepKeeps(model, Step.CloseRouter(scripts));
      hide Inv;
      hide RouterModel.FailAll;
      var registered := RegisteredNow();
      FailRegistered(registered, scripts);
    }

    method FailRegistered(registered: seq<nat>, scripts: seq<seq<seq<Stop>>>)
      requires Ties() && forall k :: 0 <= k < |registered| ==> registered[k] < |all|
      modifies this`listeners, this`closing, this`model, finished, all
      ensures Ties() && model == FailListeners(old(model), registered, scripts)
    {
      FailFromStart(model, registered, scripts);
      assert |model.all| == |all|;
      hide *;
      FailRest(registered, scripts, 0);
    }

    method FailRest(registered: seq<nat>, scripts: seq<seq<seq<Stop>>>, from: nat)
      requires Ties() && from <= |registered| && forall k :: 0 <= k < |registered| ==> registered[k] < |model.all|
      modifies this`listeners, this`closing, this`model, finished, all
      ensures Ties() && model == FailListeners(old(model), registered[from..], RestOf(scripts, from))
    {
      hide *;
      for i := from to |registered|
        invariant Ties() && unchanged(this`all)
        invariant forall k :: 0 <= k < |registered| ==> registered[k] < |model.all|
        invariant FailListeners(model, registered[i..], RestOf(scripts, i))
          == FailListeners(old(model), registered[from..], RestOf(scripts, from))
      {
        FailOneOf(registered, scripts, i);
      }
      FailNone(model, RestOf(scripts, |registered|));
      assert registered[|registered|..] == [];
    }

    method FailOneOf(registered: seq<nat>, scripts: seq<seq<seq<Stop>>>, i: nat)
      requires Ties() && i < |registered| && forall k :: 0 <= k < |registered| ==> registered[k] < |model.all|
      modifies this`listeners, this`closing, this`model, finished, all
      ensures Ties() && |model.all| == |old(model).all|
      ensures FailListeners(model, registered[i + 1..], RestOf(scripts, i + 1))
        == FailListeners(old(model), registered[i..], RestOf(scripts, i))
    {
      hide RouterModel.FailAll;
      hide FailListeners;
      hide RestOf;
      FailNext(model, registered, scripts, i);
      FailAll(registered[i], if i < |scripts| then scripts[i] else []);
    }

    /** `[...this.listeners.values()]`: a listener registers when it is created, so in that order. */
    method RegisteredNow() returns (ls: seq<nat>)
      requires Ties()
      ensures ls == Registered(model, 0)
    {
      ls := [];
      var i := |all|;
      while i > 0
        invariant 0 <= i <= |all|
        invariant ls == Registered(model, i)
      {
        i := i - 1;
        if all[i].replyTo in listeners && listeners[all[i].replyTo] == all[i] {
          ls := [i] + ls;
        }
      }
    }
  }

  function RestOf(scripts: seq<seq<seq<Stop>>>, i: nat): seq<seq<seq<Stop>>> {
    if i < |scripts| then scripts[i..] else []
  }

  function Rest(script: seq<seq<Stop>>, i: nat): seq<seq<Stop>> {
    if i < |script| then script[i..] else []
  }

  lemma {:induction false} FailFromStart(r: Router, ls: seq<nat>, scripts: seq<seq<seq<Stop>>>)
    requires forall k :: 0 <= k < |ls| ==> ls[k] < |r.all|
    ensures FailListeners(r, ls[0..], RestOf(scripts, 0)) == FailListeners(r, ls, scripts)
  {
    assert ls[0..] == ls;
    if scripts != [] { assert RestOf(scripts, 0) == scripts; }
  }

  lemma {:induction false} FailNone(r: Router, scripts: seq<seq<seq<Stop>>>)
    ensures FailListeners(r, [], scripts) == r
  {
  }

  lemma {:induction false} FailNext(r: Router, ls: seq<nat>, scripts: seq<seq<seq<Stop>>>, i: nat)
    requires i < |ls| && forall k :: 0 <= k < |ls| ==> ls[k] < |r.all|
    ensures
      var next := RouterModel.FailAll(r, ls[i], if i < |scripts| then scripts[i] else []);
      FailListeners(r, ls[i..], RestOf(scripts, i)) == FailListeners(next, ls[i + 1..], RestOf(scripts, i + 1))
  {
    assert ls[i..][0] == ls[i] && ls[i..][1..] == ls[i + 1..];
    if i < |scripts| { assert scripts[i..][0] == scripts[i] && scripts[i..][1..] == scripts[i + 1..]; }
    if i + 1 == |scripts| { assert scripts[i + 1..] == []; }
  }
}
