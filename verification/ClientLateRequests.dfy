/**
 * When a caller can rely on "no connection is closed under a receiver that is
 * still closing": when no request is sent between `replies.close()` and the
 * moment the connection is taken. One that is sent then can break it.
 */
module ClientLateRequests {
  import opened Values
  import opened ClientShutdown
  import Model = RouterModel
  import RI = RouterInvariant
  import RG = RouterGuarantees
  import Progress = RouterProgress
  import Close = ClientClose
  import CI = ClientCloseInvariant
  import Late = ClientCloseLate
  import Recent = RecentIds
  import Timers

  /** No request starts to wait while the connection is in use. */
  predicate NoRequestOn(b: Both, steps: seq<Step>, n: nat)
    requires Legal(b, steps)
    decreases |steps|
  {
    steps != [] ==>
      && (b.client.current == Some(n) ==> !(steps[0].Routes? && steps[0].step.Wait?))
      && NoRequestOn(Apply(b, steps[0]), steps[1..], n)
  }

  /** Every work on the connection started while it was in use. */
  ghost predicate AllEarly(c: Close.Client, n: nat) {
    forall k :: 0 <= k < |c.works| && c.works[k].connection == Some(n) ==> c.works[k].early
  }

  /** Every receiver of the connection is tracked, and none can be opened on it. */
  ghost predicate NoneLate(b: Both, n: nat) {
    && n < |b.client.closeCalls| && AllEarly(b.client, n)
    && (forall l :: l in b.connection && b.connection[l] == n ==> l in b.work)
    && (b.client.current == Some(n) ==> forall l :: 0 <= l < |b.router.all| ==> b.router.all[l].closed)
  }

  /** Tracking what closes starts no work on the connection. */
  lemma {:induction false} TrackFromEarlyOnly(b: Both, l: nat, n: nat)
    requires AllEarly(b.client, n) && forall j :: j in b.connection && b.connection[j] == n ==> j in b.work
    ensures AllEarly(TrackFrom(b, l).client, n)
    ensures forall j :: j in b.connection && b.connection[j] == n ==> j in TrackFrom(b, l).work
    decreases |b.router.all| - l
  {
    if l < |b.router.all| {
      var next := if b.router.all[l].closed && l !in b.work then TrackOne(b, l) else b;
      assert AllEarly(next.client, n);
      hide AllEarly;
      TrackFromEarlyOnly(next, l + 1, n);
    }
  }

  /** A step of the router that starts no request: no listener is new, and those closed stay so. */
  lemma {:induction false} NoNewListener(r: Model.Router, step: Model.Step)
    requires RI.Inv(r) && Model.Enabled(r, step) && !step.Wait?
    ensures |Model.Apply(r, step).all| == |r.all|
    ensures forall l :: 0 <= l < |r.all| && r.all[l].closed ==> Model.Apply(r, step).all[l].closed
  {
    Progress.InvOpenOnes(r);
    Progress.StepForward(r, step);
    Progress.OthersOpenNothing(r, step);
    hide Model.Apply;
    hide Model.Enabled;
    hide RI.Inv;
  }

  /** What an opening reads is not the connection: it is no longer in use, or no listener is open. */
  lemma {:induction false} OpensElsewhere(b: Both, step: Model.Step, n: nat)
    requires NoneLate(b, n) && Model.Enabled(b.router, step)
    ensures forall l :: l in Opens(b, step) && Opens(b, step)[l] == n ==> l in b.work
  {
    hide Model.Apply;
  }

  lemma {:induction false} RouterIsSound(b: Both)
    requires Inv(b)
    ensures RI.Inv(b.router) && forall l :: 0 <= l < |b.router.all| ==> Tracked(b, l)
  {
    hide RI.Inv;
    hide CI.Inv;
    hide Tracked;
  }

  /** The router has moved, and nothing is tracked yet. */
  lemma {:induction false} RouterMovesNoneLate(b: Both, step: Model.Step, n: nat)
    requires Inv(b) && NoneLate(b, n) && Enabled(b, Routes(step))
    requires b.client.current == Some(n) ==> !step.Wait?
    ensures NoneLate(b.(router := Model.Apply(b.router, step), connection := Opens(b, step)), n)
  {
    RouterIsSound(b);
    hide Inv;
    hide Model.Apply;
    hide Model.Enabled;
    hide Opens;
    hide AllEarly;
    OpensElsewhere(b, step, n);
    if b.client.current == Some(n) { NoNewListener(b.router, step); }
  }

  lemma {:induction false} TrackFromNoneLate(b: Both, n: nat)
    requires NoneLate(b, n)
    ensures NoneLate(TrackFrom(b, 0), n)
  {
    hide TrackFrom;
    TrackFromEarlyOnly(b, 0, n);
    TrackFromFrame(b, 0);
    hide AllEarly;
  }

  lemma {:induction false} ForgetNoneLate(b: Both, l: nat, n: nat)
    requires NoneLate(b, n)
    ensures NoneLate(Forget(b, l), n)
  {
  }

  lemma {:induction false} RouteKeepsNoneLate(b: Both, step: Model.Step, n: nat)
    requires Inv(b) && NoneLate(b, n) && Enabled(b, Routes(step))
    requires b.client.current == Some(n) ==> !step.Wait?
    ensures NoneLate(RouteIn(b, step), n)
  {
    RouterMovesNoneLate(b, step, n);
    hide Inv;
    hide NoneLate;
    hide Model.Apply;
    hide Model.Enabled;
    hide Opens;
    hide TrackFrom;
    hide Forget;
    var next := b.(router := Model.Apply(b.router, step), connection := Opens(b, step));
    if IsClosing(step) { ForgetNoneLate(next, step.listener, n); } else { TrackFromNoneLate(next, n); }
  }

  lemma {:induction false} CloseRepliesKeepsNoneLate(b: Both, i: nat, scripts: seq<seq<seq<Model.Stop>>>, n: nat)
    requires Inv(b) && NoneLate(b, n) && Enabled(b, ClosesReplies(i, scripts))
    ensures NoneLate(CloseRepliesIn(b, i, scripts), n)
  {
    var next := b.(router := Model.Apply(b.router, Model.CloseRouter(scripts)));
    NoNewListener(b.router, Model.CloseRouter(scripts));
    TrackFromEarlyOnly(next, 0, n);
    TrackFromFrame(next, 0);
    SettleReceiversFrame(TrackFrom(next, 0), i);
    hide Inv;
    hide Model.Apply;
    hide Model.Enabled;
    hide TrackFrom;
    hide Close.SettleReceivers;
  }

  lemma {:induction false} MovesKeepsNoneLate(b: Both, step: Close.Step, n: nat)
    requires Inv(b) && NoneLate(b, n) && Enabled(b, Moves(step))
    ensures NoneLate(b.(client := Close.Apply(b.client, step)), n)
  {
    var e := Close.Apply(b.client, step);
    Late.CurrentMoves(b.client, step);
    ConnectionsStay(b.client, step);
    forall k | 0 <= k < |e.works| && e.works[k].connection == Some(n) ensures e.works[k].early {
      if k < |b.client.works| {
        Late.WorkStays(b.client, step, k);
      } else {
        Late.EarlyWhenCurrent(b.client, step, k);
        NotTracked(b, step, n);
      }
    }
    hide Inv;
    hide Close.Apply;
    hide Close.Enabled;
  }

  /** The composed machine tracks a receiver only when its listener closes. */
  lemma {:induction false} NotTracked(b: Both, step: Close.Step, n: nat)
    requires Enabled(b, Moves(step))
    ensures !Late.Tracks(b.client, step, n)
  {
  }

  lemma {:induction false} StepKeepsNoneLate(b: Both, step: Step, n: nat)
    requires Inv(b) && NoneLate(b, n) && Enabled(b, step)
    requires b.client.current == Some(n) ==> !(step.Routes? && step.step.Wait?)
    ensures NoneLate(Apply(b, step), n)
  {
    hide Inv;
    hide NoneLate;
    match step {
      case Routes(s) => RouteKeepsNoneLate(b, s, n);
      case Moves(s) => MovesKeepsNoneLate(b, s, n);
      case ClosesReplies(i, scripts) => CloseRepliesKeepsNoneLate(b, i, scripts, n);
    }
  }

  lemma {:induction false} RunKeepsNoneLate(b: Both, steps: seq<Step>, n: nat)
    requires Inv(b) && NoneLate(b, n) && Legal(b, steps) && NoRequestOn(b, steps, n)
    ensures Inv(Exec(b, steps)) && NoneLate(Exec(b, steps), n)
    decreases |steps|
  {
    hide Inv;
    hide NoneLate;
    if steps != [] {
      StepKeeps(b, steps[0]);
      StepKeepsNoneLate(b, steps[0], n);
      hide Apply;
      hide Enabled;
      RunKeepsNoneLate(Apply(b, steps[0]), steps[1..], n);
    }
  }

  /** `replies.close()` leaves no listener open, and everything on the connection in use started on it. */
  lemma {:induction false} NoneLateAtFirst(b: Both, i: nat, scripts: seq<seq<seq<Model.Stop>>>, n: nat)
    requires Inv(b) && Enabled(b, ClosesReplies(i, scripts)) && b.client.current == Some(n)
    ensures NoneLate(CloseRepliesIn(b, i, scripts), n)
  {
    var e := CloseRepliesIn(b, i, scripts);
    StepKeeps(b, ClosesReplies(i, scripts));
    assert Inv(e);
    hide CloseRepliesIn;
    AllClosedAfter(b, i, scripts);
    Late.CurrentIsOpen(e.client);
    forall l | l in e.connection && e.connection[l] == n ensures l in e.work {
      assert Tracked(e, l);
    }
    hide RI.Inv;
    hide CI.Inv;
  }

  lemma {:induction false} AllClosedAfter(b: Both, i: nat, scripts: seq<seq<seq<Model.Stop>>>)
    requires Inv(b) && Enabled(b, ClosesReplies(i, scripts))
    ensures
      var e := CloseRepliesIn(b, i, scripts);
      && e.client.current == b.client.current
      && forall l :: 0 <= l < |e.router.all| ==> e.router.all[l].closed
  {
    var next := b.(router := Model.Apply(b.router, Model.CloseRouter(scripts)));
    RG.EveryListenerCloses(b.router, scripts);
    assert next.router == Model.FailListeners(b.router, Model.Registered(b.router, 0), scripts);
    TrackFromFrame(next, 0);
    SettleReceiversFrame(TrackFrom(next, 0), i);
    hide Inv;
    hide Model.Apply;
    hide Model.FailListeners;
    hide Model.Registered;
    hide TrackFrom;
    hide Close.SettleReceivers;
  }

  lemma {:induction false} NoneLateIsSafe(b: Both, n: nat)
    requires Inv(b) && NoneLate(b, n)
    ensures Late.Safe(b.client, n)
  {
    assert CI.ConnectionOk(b.client, n);
    hide RI.Inv;
    hide AllTracked;
  }

  /**
   * As long as no request starts to wait between `replies.close()` and the moment
   * the connection is taken, the connection is closed, in every run and whatever
   * other calls of `close()` do, only when everything on it has settled.
   */
  lemma {:induction false} SafeWithoutLateRequests(
      b: Both, i: nat, scripts: seq<seq<seq<Model.Stop>>>, n: nat, steps: seq<Step>)
    requires Reachable(b) && Enabled(b, ClosesReplies(i, scripts)) && b.client.current == Some(n)
    requires Legal(CloseRepliesIn(b, i, scripts), steps) && NoRequestOn(CloseRepliesIn(b, i, scripts), steps, n)
    ensures Late.Safe(Exec(CloseRepliesIn(b, i, scripts), steps).client, n)
  {
    ReachableInv(b);
    StepKeeps(b, ClosesReplies(i, scripts));
    assert CloseRepliesIn(b, i, scripts) == Apply(b, ClosesReplies(i, scripts));
    NoneLateAtFirst(b, i, scripts, n);
    RunKeepsNoneLate(CloseRepliesIn(b, i, scripts), steps, n);
    NoneLateIsSafe(Exec(CloseRepliesIn(b, i, scripts), steps), n);
    hide *;
  }

  // ------------------------------------------------------------- the witness

  lemma {:induction false} AndBefore(b: Both, step: Step, rest: seq<Step>) returns (steps: seq<Step>)
    requires Enabled(b, step) && Legal(Apply(b, step), rest)
    ensures Legal(b, steps) && Exec(b, steps) == Exec(Apply(b, step), rest) && steps == [step] + rest
  {
    hide Enabled;
    hide Apply;
    steps := [step] + rest;
    assert steps[1..] == rest;
  }

  /** A client with a connection, nothing in flight and no request, about to close its replies. */
  predicate Closing(b: Both, timeout: Timers.Limit) {
    && b.router == Model.Empty(false) && b.connection == map[] && b.work == map[]
    && b.client.timeout == timeout && b.client.current == Some(0) && b.client.closeCalls == [0]
    && b.client.works == [] && |b.client.closers| == 1 && b.client.closers[0].phase == Close.ClosingReplies
  }

  lemma {:induction false} ReachesClosing(timeout: Timers.Limit) returns (b: Both)
    requires Timers.Honoured(timeout)
    ensures Reachable(b) && Closing(b, timeout)
  {
    var b0 := NewBoth(false, timeout);
    var b1 := Apply(b0, Moves(Close.Connect));
    var b2 := Apply(b1, Moves(Close.Close));
    assert Close.Live(b2.client.works) == {};
    b := Apply(b2, Moves(Close.Run(0, [])));
    assert Legal(b, []) && Closing(b, timeout);
    hide *;
    var steps := AndBefore(b2, Moves(Close.Run(0, [])), []);
    steps := AndBefore(b1, Moves(Close.Close), steps);
    steps := AndBefore(b0, Moves(Close.Connect), steps);
    IsReachable(b, false, timeout, steps);
  }

  lemma {:induction false} IsReachable(b: Both, session: bool, timeout: Timers.Limit, steps: seq<Step>)
    requires Timers.Honoured(timeout) && b.client.timeout == timeout
    requires Legal(NewBoth(session, timeout), steps) && Exec(NewBoth(session, timeout), steps) == b
    ensures Reachable(b)
  {
    hide Legal;
    hide Exec;
  }

  /** After `replies.close()`, one request opened its receiver on the connection in use. */
  predicate Asked(b: Both, queue: string, id: string) {
    && b.router.all == [Requested(queue, id).(receiver := true, subscribed := true, opening := Model.Opened)]
    && b.router.listeners == map[queue := 0] && b.router.fate == map[id := Model.Waiting(0)]
    && b.connection == map[0 := 0] && b.work == map[]
    && b.client.current == Some(0) && b.client.closeCalls == [0] && b.client.works == []
    && |b.client.closers| == 1 && b.client.closers[0].phase == Close.SettlingSends(true)
  }

  function Requested(queue: string, id: string): Model.Listener {
    Model.Listener(queue, [id], false, false, false, false, Model.AwaitingPrevious(None), Model.NotClosing, 0)
  }

  lemma {:induction false} RepliesClose(b: Both, timeout: Timers.Limit)
    requires Closing(b, timeout)
    ensures Enabled(b, ClosesReplies(0, []))
    ensures
      var c := CloseRepliesIn(b, 0, []);
      && c == b.(client := c.client) && c.client == b.client.(closers := c.client.closers)
      && |c.client.closers| == 1 && c.client.closers[0].phase == Close.SettlingSends(true)
  {
    assert Model.Apply(b.router, Model.CloseRouter([])) == b.router;
    assert b.(router := b.router) == b && TrackFrom(b, 0) == b;
    assert Close.InFlight(Close.NoteReplies(b.client, 0).works) == {};
  }

  lemma {:induction false} RouterAsks(queue: string, id: string) returns (r1: Model.Router, r2: Model.Router)
    ensures Model.Enabled(Model.Empty(false), Model.Wait(queue, id))
    ensures r1 == Model.Apply(Model.Empty(false), Model.Wait(queue, id)) && r1.all == [Requested(queue, id)]
    ensures Model.Enabled(r1, Model.OpenResumes(0, Model.Goes))
    ensures r2 == Model.Apply(r1, Model.OpenResumes(0, Model.Goes))
    ensures r2.all == [Requested(queue, id).(receiver := true, subscribed := true, opening := Model.Opened)]
    ensures r2.listeners == map[queue := 0] && r2.fate == map[id := Model.Waiting(0)]
  {
    r1 := Model.Apply(Model.Empty(false), Model.Wait(queue, id));
    assert [] + [id] == [id];
    assert r1.all[0] == Requested(queue, id);
    r2 := Model.Apply(r1, Model.OpenResumes(0, Model.Goes));
  }

  lemma {:induction false} RequestIsLate(b: Both, queue: string, id: string) returns (c1: Both, c2: Both)
    requires b.router == Model.Empty(false) && b.connection == map[] && b.work == map[]
    requires b.client.current == Some(0) && b.client.closeCalls == [0] && b.client.works == []
    requires |b.client.closers| == 1 && b.client.closers[0].phase == Close.SettlingSends(true)
    ensures Enabled(b, Routes(Model.Wait(queue, id))) && c1 == Apply(b, Routes(Model.Wait(queue, id)))
    ensures Enabled(c1, Routes(Model.OpenResumes(0, Model.Goes)))
    ensures c2 == Apply(c1, Routes(Model.OpenResumes(0, Model.Goes))) && Asked(c2, queue, id)
  {
    var r1, r2 := RouterAsks(queue, id);
    hide Model.Apply;
    hide Model.Enabled;
    c1 := Apply(b, Routes(Model.Wait(queue, id)));
    NoneCloses(b.(router := r1));
    assert c1 == b.(router := r1);
    c2 := Apply(c1, Routes(Model.OpenResumes(0, Model.Goes)));
    NoneCloses(c1.(router := r2, connection := map[0 := 0]));
    assert c2 == c1.(router := r2, connection := map[0 := 0]);
  }

  lemma {:induction false} NoneCloses(b: Both)
    requires |b.router.all| == 1 && !b.router.all[0].closed
    ensures TrackFrom(b, 0) == b
  {
    assert TrackFrom(b, 1) == b;
  }

  lemma {:induction false} ReceiverIsLate(b: Both, queue: string, id: string) returns (steps: seq<Step>)
    requires Asked(b, queue, id)
    ensures steps ==
      [Moves(Close.Run(0, [])), Moves(Close.Run(0, [])), Routes(Model.StopWaiting(0, id))]
    ensures Legal(b, steps) && !Late.Safe(Exec(b, steps).client, 0)
  {
    var run, stop := Moves(Close.Run(0, [])), Routes(Model.StopWaiting(0, id));
    assert Close.Live(b.client.works) == {} && Close.Unsettled(b.client.works) == {};
    var c1 := Apply(b, run);
    var c2 := Apply(c1, run);
    assert c2.client.closeCalls == [1] && c2.router == b.router && c2.work == map[] && c2.connection == map[0 := 0];
    var c3 := StopsLate(c2, queue, id);
    assert Legal(c3, []);
    hide *;
    steps := AndBefore(c2, stop, []);
    steps := AndBefore(c1, run, steps);
    steps := AndBefore(b, run, steps);
  }

  lemma {:induction false} RouterStops(r: Model.Router, queue: string, id: string)
    requires r.all == [Requested(queue, id).(receiver := true, subscribed := true, opening := Model.Opened)]
    ensures Model.Enabled(r, Model.StopWaiting(0, id))
    ensures
      var s := Model.Apply(r, Model.StopWaiting(0, id));
      |s.all| == 1 && s.all[0].closed
  {
    assert [id][1..] == [] && Recent.Without([id][1..], id) == [];
  }

  lemma {:induction false} StopsLate(b: Both, queue: string, id: string) returns (c: Both)
    requires b.router.all == [Requested(queue, id).(receiver := true, subscribed := true, opening := Model.Opened)]
    requires b.connection == map[0 := 0] && b.work == map[]
    requires b.client.closeCalls == [1] && b.client.works == []
    ensures Enabled(b, Routes(Model.StopWaiting(0, id))) && c == Apply(b, Routes(Model.StopWaiting(0, id)))
    ensures !Late.Safe(c.client, 0)
  {
    RouterStops(b.router, queue, id);
    hide Model.Apply;
    hide Model.Enabled;
    c := Apply(b, Routes(Model.StopWaiting(0, id)));
    var next := b.(router := Model.Apply(b.router, Model.StopWaiting(0, id)));
    assert TrackFrom(TrackOne(next, 0), 1) == TrackOne(next, 0);
    assert c == TrackOne(next, 0);
    assert c.client.works[0].connection == Some(0);
  }

  /**
   * And one request is enough: a client with a connection and nothing in flight
   * closes; a request sent after `replies.close()` opens a receiver; the connection
   * is taken and closed; and when the request ends, its receiver starts to close.
   */
  lemma {:induction false} LateRequestBreaks(timeout: Timers.Limit, queue: string, id: string)
    returns (b: Both, steps: seq<Step>)
    requires Timers.Honoured(timeout)
    ensures Reachable(b) && Enabled(b, ClosesReplies(0, [])) && b.client.current == Some(0)
    ensures steps ==
      [Routes(Model.Wait(queue, id)), Routes(Model.OpenResumes(0, Model.Goes))] +
      [Moves(Close.Run(0, [])), Moves(Close.Run(0, [])), Routes(Model.StopWaiting(0, id))]
    ensures Legal(CloseRepliesIn(b, 0, []), steps)
    ensures !Late.Safe(Exec(CloseRepliesIn(b, 0, []), steps).client, 0)
  {
    b := ReachesClosing(timeout);
    RepliesClose(b, timeout);
    var c := CloseRepliesIn(b, 0, []);
    assert b.client.current == Some(0) && c.client.closers[0].phase == Close.SettlingSends(true);
    var c1, c2 := RequestIsLate(c, queue, id);
    hide *;
    steps := ReceiverIsLate(c2, queue, id);
    steps := AndBefore(c1, Routes(Model.OpenResumes(0, Model.Goes)), steps);
    steps := AndBefore(c, Routes(Model.Wait(queue, id)), steps);
  }
}
