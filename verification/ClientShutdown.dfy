/**
 * The client's `close()` and its reply router together: which receivers
 * `replies.close()` closes, on which connection each was opened, and that the
 * connection outlives them.
 */
module ClientShutdown {
  import opened Values
  import opened RouterModel
  import RI = RouterInvariant
  import RG = RouterGuarantees
  import Progress = RouterProgress
  import Close = ClientClose
  import CI = ClientCloseInvariant
  import Late = ClientCloseLate
  import Timers

  datatype Both = Both(
    router: Router,
    client: Close.Client,
    connection: map<nat, nat>,   // per listener that got as far: the connection its receiver is on
    work: map<nat, nat>          // per listener that closes: its promise in `inFlight`
  )

  datatype Step =
    | Routes(step: RouterModel.Step)
    | Moves(move: Close.Step)
    | ClosesReplies(closer: nat, scripts: seq<seq<seq<Stop>>>)

  function NewBoth(session: bool, timeout: Timers.Limit): Both {
    Both(Empty(session), Close.NewClient(timeout), map[], map[])
  }

  function ConnectionOf(b: Both, l: nat): Option<nat> {
    if l in b.connection then Some(b.connection[l]) else None
  }

  /** `track()` of a listener's closing */
  function TrackOne(b: Both, l: nat): Both {
    b.(client := Close.Begin(b.client, Close.ReceiverClosing, ConnectionOf(b, l)),
       work := b.work[l := |b.client.works|])
  }

  /** The listeners from `l` on that are closed and were not are tracked. */
  function TrackFrom(b: Both, l: nat): Both
    decreases |b.router.all| - l
  {
    if l >= |b.router.all| then b
    else TrackFrom(if b.router.all[l].closed && l !in b.work then TrackOne(b, l) else b, l + 1)
  }

  /** The opening that reads which connection the client uses. */
  function Opens(b: Both, step: RouterModel.Step): map<nat, nat> {
    match step
    case OpenResumes(l, _) =>
      if l < |b.router.all| && !b.router.all[l].closed && b.client.current.Some?
      then b.connection[l := b.client.current.value] else b.connection
    case _ => b.connection
  }

  predicate Enabled(b: Both, step: Step) {
    match step
    case Routes(s) =>
      && RouterModel.Enabled(b.router, s) && !s.CloseRouter?
      && (s.OpenResumes? && b.client.current.None? && !b.router.all[s.listener].closed ==> s.result.Throws?)
    case Moves(s) =>
      && Close.Enabled(b.client, s) && !s.Track?
      && (s.Settle? ==> b.client.works[s.work].kind.Send?)
      && (s.Run? ==> !b.client.closers[s.closer].phase.ClosingReplies?)
    case ClosesReplies(i, scripts) =>
      i < |b.client.closers| && b.client.closers[i].phase.ClosingReplies?
  }

  /** A step of a listener's closing. */
  predicate IsClosing(step: RouterModel.Step) {
    step.CloseResumes? || step.ReceiverCloses? || step.SubscriptionCloses?
  }

  /** A closing that ends settles its promise. */
  function Forget(b: Both, l: nat): Both {
    if l < |b.router.all| && b.router.all[l].closing.Settled? && l in b.work && b.work[l] < |b.client.works| then
      var k := b.work[l];
      b.(client := b.client.(works := b.client.works[k := b.client.works[k].(settled := true)]))
    else b
  }

  /** The router moves: what starts to close is tracked, and what has closed is forgotten. */
  function RouteIn(b: Both, step: RouterModel.Step): Both
    requires RouterModel.Enabled(b.router, step)
  {
    var next := b.(router := RouterModel.Apply(b.router, step), connection := Opens(b, step));
    if IsClosing(step) then Forget(next, step.listener) else TrackFrom(next, 0)
  }

  /** `replies.close()` and the rest of that stretch of `close()` */
  function CloseRepliesIn(b: Both, i: nat, scripts: seq<seq<seq<Stop>>>): Both
    requires i < |b.client.closers|
  {
    TrackFromFrame(b.(router := RouterModel.Apply(b.router, CloseRouter(scripts))), 0);
    var next := TrackFrom(b.(router := RouterModel.Apply(b.router, CloseRouter(scripts))), 0);
    next.(client := Close.SettleReceivers(next.client, i))
  }

  /** Tracking leaves everything but the promises as it was. */
  lemma {:induction false} TrackFromFrame(b: Both, l: nat)
    ensures
      var e := TrackFrom(b, l);
      e == b.(client := b.client.(works := e.client.works), work := e.work) && b.client.works <= e.client.works
    decreases |b.router.all| - l
  {
    if l < |b.router.all| {
      TrackFromFrame(if b.router.all[l].closed && l !in b.work then TrackOne(b, l) else b, l + 1);
    }
  }

  function Apply(b: Both, step: Step): Both
    requires Enabled(b, step)
  {
    match step
    case Routes(s) => RouteIn(b, s)
    case Moves(s) => b.(client := Close.Apply(b.client, s))
    case ClosesReplies(i, scripts) => CloseRepliesIn(b, i, scripts)
  }

  predicate Legal(b: Both, steps: seq<Step>)
    decreases |steps|
  {
    steps == [] || (Enabled(b, steps[0]) && Legal(Apply(b, steps[0]), steps[1..]))
  }

  function Exec(b: Both, steps: seq<Step>): Both
    requires Legal(b, steps)
    decreases |steps|
  {
    if steps == [] then b else Exec(Apply(b, steps[0]), steps[1..])
  }

  // -------------------------------------------------------------- invariant

  /** The closing listener's promise: tracked with its connection, settled when its closing is. */
  ghost predicate Tracked(b: Both, l: nat)
    requires l < |b.router.all|
  {
    && (b.router.all[l].closed <==> l in b.work)
    && (l in b.work ==>
          && b.work[l] < |b.client.works|
          && var w := b.client.works[b.work[l]];
          && w.kind.ReceiverClosing? && w.connection == ConnectionOf(b, l)
          && (w.settled <==> b.router.all[l].closing.Settled?))
  }

  ghost predicate AllTracked(b: Both) {
    && (forall l :: 0 <= l < |b.router.all| ==> Tracked(b, l))
    && (forall l :: l in b.work ==> l < |b.router.all|)
    && (forall l, m :: l in b.work && m in b.work && b.work[l] == b.work[m] ==> l == m)
  }

  ghost predicate ConnectionsKnown(b: Both) {
    forall l :: l in b.connection ==> l < |b.router.all| && b.connection[l] < |b.client.closeCalls|
  }

  ghost predicate Inv(b: Both) {
    RI.Inv(b.router) && CI.Inv(b.client) && Late.CurrentIsEarly(b.client) && AllTracked(b) && ConnectionsKnown(b)
  }

  // ---------------------------------------------------- the invariant, kept

  /** The listeners below `l` are tracked as they are; the others as far as they were closed before. */
  ghost predicate TrackedBelow(b: Both, l: nat) {
    && (forall j :: 0 <= j < |b.router.all| && (j < l || j in b.work) ==> Tracked(b, j))
    && (forall j :: l <= j < |b.router.all| && b.router.all[j].closed && j !in b.work ==>
          !b.router.all[j].closing.Settled?)
    && (forall j :: j in b.work ==> j < |b.router.all|)
    && (forall j, m :: j in b.work && m in b.work && b.work[j] == b.work[m] ==> j == m)
  }

  lemma {:induction false} TrackOneTracked(b: Both, l: nat)
    requires TrackedBelow(b, l) && l < |b.router.all| && b.router.all[l].closed && l !in b.work
    ensures TrackedBelow(TrackOne(b, l), l + 1)
  {
    var e := TrackOne(b, l);
    forall j | 0 <= j < |e.router.all| && (j < l + 1 || j in e.work) ensures Tracked(e, j) {
      if j != l { assert Tracked(b, j); }
    }
    forall j | j in b.work ensures b.work[j] < |b.client.works| { assert Tracked(b, j); }
  }

  lemma {:induction false} SkipTracked(b: Both, l: nat)
    requires TrackedBelow(b, l) && l < |b.router.all| && (!b.router.all[l].closed || l in b.work)
    ensures TrackedBelow(b, l + 1)
  {
    if l in b.work { assert Tracked(b, l); }
  }

  lemma {:induction false} TrackFromTracked(b: Both, l: nat)
    requires TrackedBelow(b, l)
    ensures AllTracked(TrackFrom(b, l))
    decreases |b.router.all| - l
  {
    hide Tracked;
    if l < |b.router.all| {
      if b.router.all[l].closed && l !in b.work {
        TrackOneTracked(b, l);
        hide TrackedBelow;
        TrackFromTracked(TrackOne(b, l), l + 1);
      } else {
        SkipTracked(b, l);
        hide TrackedBelow;
        TrackFromTracked(b, l + 1);
      }
    }
  }

  lemma {:induction false} TrackFromKeeps(b: Both, l: nat)
    requires CI.Inv(b.client) && ConnectionsKnown(b)
    ensures CI.Inv(TrackFrom(b, l).client)
    ensures Late.CurrentIsEarly(b.client) ==> Late.CurrentIsEarly(TrackFrom(b, l).client)
    decreases |b.router.all| - l
  {
    hide CI.Inv;
    if l < |b.router.all| {
      if b.router.all[l].closed && l !in b.work {
        CI.BeginKeeps(b.client, Close.ReceiverClosing, ConnectionOf(b, l));
        TrackFromKeeps(TrackOne(b, l), l + 1);
      } else {
        TrackFromKeeps(b, l + 1);
      }
    }
  }

  /** The router's step, before anything is tracked. */
  lemma {:induction false} StartsTracked(b: Both, next: Router, connection: map<nat, nat>)
    requires AllTracked(b) && Progress.OnlyStarts(b.router, next) && Progress.OpenOnes(b.router)
    requires forall l :: l in b.work ==> (l in connection <==> l in b.connection)
                                         && (l in connection ==> connection[l] == b.connection[l])
    ensures TrackedBelow(b.(router := next, connection := connection), 0)
  {
    var e := b.(router := next, connection := connection);
    forall j | 0 <= j < |e.router.all| && j in e.work ensures Tracked(e, j) {
      assert Tracked(b, j);
    }
    forall j | 0 <= j < |e.router.all| && e.router.all[j].closed && j !in e.work
      ensures !e.router.all[j].closing.Settled?
    {
      if j < |b.router.all| { assert Tracked(b, j); }
    }
  }

  lemma {:induction false} ClosingStepFrame(r: Router, step: RouterModel.Step)
    requires RI.Lifecycles(r) && RouterModel.Enabled(r, step) && IsClosing(step)
    ensures
      var s, l := RouterModel.Apply(r, step), step.listener;
      && |s.all| == |r.all| && l < |r.all|
      && (forall j :: 0 <= j < |r.all| && j != l ==> s.all[j] == r.all[j])
      && r.all[l].closed && s.all[l].closed && !r.all[l].closing.Settled?
  {
    assert RI.Lifecycle(r.all[step.listener]);
    hide ForgetClosing;
  }

  lemma {:induction false} ForgetTracked(b: Both, next: Router, l: nat)
    requires AllTracked(b) && |next.all| == |b.router.all| && l < |next.all|
    requires forall j :: 0 <= j < |next.all| && j != l ==> next.all[j] == b.router.all[j]
    requires b.router.all[l].closed && next.all[l].closed && !b.router.all[l].closing.Settled?
    ensures AllTracked(Forget(b.(router := next), l))
    ensures
      var e := Forget(b.(router := next), l);
      e.client == b.client
      || (l in b.work && Close.Enabled(b.client, Close.Settle(b.work[l]))
          && e.client == Close.Apply(b.client, Close.Settle(b.work[l])))
  {
    var e := Forget(b.(router := next), l);
    assert Tracked(b, l);
    forall j | 0 <= j < |e.router.all| ensures Tracked(e, j) {
      assert Tracked(b, j);
    }
  }

  lemma {:induction false} ClosingKeeps(b: Both, step: RouterModel.Step)
    requires Inv(b) && Enabled(b, Routes(step)) && IsClosing(step)
    ensures Inv(RouteIn(b, step))
  {
    var next := RouterModel.Apply(b.router, step);
    RI.StepKeeps(b.router, step);
    ClosingStepFrame(b.router, step);
    ForgetTracked(b, next, step.listener);
    var e := Forget(b.(router := next), step.listener);
    assert RouteIn(b, step) == e by { assert Opens(b, step) == b.connection; }
    if e.client != b.client {
      CI.SettleKeeps(b.client, b.work[step.listener]);
      Late.StepCurrentIsEarly(b.client, Close.Settle(b.work[step.listener]));
    }
    hide Late.CurrentIsEarly;
    hide RI.Inv;
    hide RouterModel.Apply;
    hide CI.Inv;
    hide AllTracked;
    hide RouteIn;
  }

  lemma {:induction false} StartingKeeps(b: Both, step: RouterModel.Step)
    requires Inv(b) && Enabled(b, Routes(step)) && !IsClosing(step)
    ensures Inv(RouteIn(b, step))
  {
    var next := b.(router := RouterModel.Apply(b.router, step), connection := Opens(b, step));
    RI.StepKeeps(b.router, step);
    Progress.InvOpenOnes(b.router);
    Progress.StepOnlyStarts(b.router, step);
    OpensKnown(b, step);
    hide RI.Inv;
    hide RouterModel.Apply;
    hide RouterModel.Enabled;
    hide Opens;
    StartsTracked(b, next.router, next.connection);
    hide AllTracked;
    TrackFromTracked(next, 0);
    TrackFromKeeps(next, 0);
    TrackFromFrame(next, 0);
    hide CI.Inv;
    hide Late.CurrentIsEarly;
    hide TrackedBelow;
    hide TrackFrom;
  }

  /** An opening reads the connection in use, for a listener that has not closed. */
  lemma {:induction false} OpensKnown(b: Both, step: RouterModel.Step)
    requires Inv(b) && RouterModel.Enabled(b.router, step)
    ensures
      var e := b.(router := RouterModel.Apply(b.router, step), connection := Opens(b, step));
      && |b.router.all| <= |e.router.all|
      && ConnectionsKnown(e)
      && forall l :: l in b.work ==> (l in e.connection <==> l in b.connection)
                                     && (l in e.connection ==> e.connection[l] == b.connection[l])
  {
    Late.CurrentIsOpen(b.client);
    Progress.InvOpenOnes(b.router);
    Progress.StepForward(b.router, step);
    assert |b.router.all| <= |RouterModel.Apply(b.router, step).all|;
    forall l | l in b.work ensures l < |b.router.all| && b.router.all[l].closed { assert Tracked(b, l); }
    hide RI.Inv;
    hide CI.Inv;
    hide Tracked;
    hide RouterModel.Apply;
    hide Progress.Forward;
  }

  lemma {:induction false} CloseRepliesKeeps(b: Both, i: nat, scripts: seq<seq<seq<Stop>>>)
    requires Inv(b) && Enabled(b, ClosesReplies(i, scripts))
    ensures Inv(CloseRepliesIn(b, i, scripts))
  {
    var next := b.(router := RouterModel.Apply(b.router, CloseRouter(scripts)));
    RI.StepKeeps(b.router, CloseRouter(scripts));
    Progress.InvOpenOnes(b.router);
    Progress.StepOnlyStarts(b.router, CloseRouter(scripts));
    hide RI.Inv;
    hide RouterModel.Apply;
    hide RouterModel.Enabled;
    StartsTracked(b, next.router, b.connection);
    hide AllTracked;
    TrackFromTracked(next, 0);
    TrackFromKeeps(next, 0);
    TrackFromFrame(next, 0);
    var tracked := TrackFrom(next, 0);
    CI.CloseRepliesKeeps(tracked.client, i, []);
    SettleReceiversFrame(tracked, i);
    hide CI.Inv;
    hide Late.CurrentIsEarly;
    hide TrackedBelow;
    hide TrackFrom;
    hide Close.SettleReceivers;
  }

  lemma {:induction false} SettleReceiversFrame(b: Both, i: nat)
    requires i < |b.client.closers|
    ensures
      var c := Close.SettleReceivers(b.client, i);
      && c.works == b.client.works && c.closeCalls == b.client.closeCalls && c.current == b.client.current
      && (AllTracked(b) ==> AllTracked(b.(client := c)))
      && (Late.CurrentIsEarly(b.client) ==> Late.CurrentIsEarly(c))
      && Close.CloseReplies(b.client, i, []) == c
  {
    var e := b.(client := Close.SettleReceivers(b.client, i));
    if AllTracked(b) {
      forall l | 0 <= l < |e.router.all| ensures Tracked(e, l) { assert Tracked(b, l); }
    }
  }

  lemma {:induction false} MovesKeeps(b: Both, step: Close.Step)
    requires Inv(b) && Enabled(b, Moves(step))
    ensures Inv(Apply(b, Moves(step)))
  {
    var e := Apply(b, Moves(step));
    CI.StepKeeps(b.client, step);
    Late.StepCurrentIsEarly(b.client, step);
    hide Late.CurrentIsEarly;
    forall k | 0 <= k < |b.client.works| && b.client.works[k].kind.ReceiverClosing?
      ensures
        && k < |e.client.works| && e.client.works[k].kind.ReceiverClosing?
        && e.client.works[k].connection == b.client.works[k].connection
        && e.client.works[k].settled == b.client.works[k].settled
    {
      Late.WorkStays(b.client, step, k);
    }
    ConnectionsStay(b.client, step);
    hide CI.Inv;
    hide RI.Inv;
    hide Close.Apply;
    hide Close.Enabled;
    forall l | 0 <= l < |e.router.all| ensures Tracked(e, l) { assert Tracked(b, l); }
  }

  lemma {:induction false} ConnectionsStay(c: Close.Client, step: Close.Step)
    requires Close.Enabled(c, step)
    ensures |c.closeCalls| <= |Close.Apply(c, step).closeCalls|
  {
    if step.Run? { Close.TrackAllFrame(c, step.receivers); }
    hide Close.TrackAll;
  }

  lemma {:induction false} StepKeeps(b: Both, step: Step)
    requires Inv(b) && Enabled(b, step)
    ensures Inv(Apply(b, step))
  {
    hide Inv;
    match step {
      case Routes(s) => if IsClosing(s) { ClosingKeeps(b, s); } else { StartingKeeps(b, s); }
      case Moves(s) => MovesKeeps(b, s);
      case ClosesReplies(i, scripts) => CloseRepliesKeeps(b, i, scripts);
    }
  }

  lemma {:induction false} RunKeeps(b: Both, steps: seq<Step>)
    requires Inv(b) && Legal(b, steps)
    ensures Inv(Exec(b, steps))
    decreases |steps|
  {
    hide Inv;
    if steps != [] {
      StepKeeps(b, steps[0]);
      RunKeeps(Apply(b, steps[0]), steps[1..]);
    }
  }

  // -------------------------------------------------------------- guarantee

  ghost predicate Reachable(b: Both) {
    exists session, steps ::
      && Timers.Honoured(b.client.timeout)
      && Legal(NewBoth(session, b.client.timeout), steps) && Exec(NewBoth(session, b.client.timeout), steps) == b
  }

  lemma {:induction false} NewInv(session: bool, timeout: Timers.Limit)
    requires Timers.Honoured(timeout)
    ensures Inv(NewBoth(session, timeout))
  {
    hide RI.Inv;
    hide CI.Inv;
    RI.EmptyInv(session);
    CI.NewInv(timeout);
  }

  lemma {:induction false} ReachableInv(b: Both)
    requires Reachable(b)
    ensures Inv(b)
  {
    var session, steps :|
      && Timers.Honoured(b.client.timeout)
      && Legal(NewBoth(session, b.client.timeout), steps) && Exec(NewBoth(session, b.client.timeout), steps) == b;
    NewInv(session, b.client.timeout);
    hide *;
    RunKeeps(NewBoth(session, b.client.timeout), steps);
  }

  /** The promise of a closing listener, its connection, and whether it was early, never change. */
  ghost predicate Stays(b: Both, e: Both) {
    && (forall l :: l in b.work ==>
          && l in e.work && e.work[l] == b.work[l]
          && (l in e.connection <==> l in b.connection) && (l in b.connection ==> e.connection[l] == b.connection[l]))
    && |b.client.works| <= |e.client.works|
    && (forall k :: 0 <= k < |b.client.works| ==>
          e.client.works[k].connection == b.client.works[k].connection
          && e.client.works[k].early == b.client.works[k].early)
  }

  lemma {:induction false} StaysOn(b: Both, e: Both, t: Both)
    requires Stays(b, e) && Stays(e, t)
    ensures Stays(b, t)
  {
  }

  lemma {:induction false} TrackFromStays(b: Both, l: nat)
    ensures Stays(b, TrackFrom(b, l))
    decreases |b.router.all| - l
  {
    if l < |b.router.all| {
      if b.router.all[l].closed && l !in b.work {
        TrackFromStays(TrackOne(b, l), l + 1);
        assert Stays(b, TrackOne(b, l));
        hide Stays;
        StaysOn(b, TrackOne(b, l), TrackFrom(b, l));
      } else {
        TrackFromStays(b, l + 1);
      }
    }
  }

  lemma {:induction false} MovesStay(b: Both, step: Close.Step)
    requires Enabled(b, Moves(step))
    ensures Stays(b, b.(client := Close.Apply(b.client, step)))
  {
    forall k | 0 <= k < |b.client.works| ensures
      && k < |Close.Apply(b.client, step).works|
      && Close.Apply(b.client, step).works[k].connection == b.client.works[k].connection
      && Close.Apply(b.client, step).works[k].early == b.client.works[k].early
    {
      Late.WorkStays(b.client, step, k);
    }
    WorksGrow(b.client, step);
    hide Close.Apply;
    hide Close.Enabled;
  }

  lemma {:induction false} CloseRepliesStay(b: Both, i: nat, scripts: seq<seq<seq<Stop>>>)
    requires i < |b.client.closers|
    ensures Stays(b, CloseRepliesIn(b, i, scripts))
  {
    hide RouterModel.Apply;
    var next := b.(router := RouterModel.Apply(b.router, CloseRouter(scripts)));
    TrackFromStays(next, 0);
    TrackFromFrame(next, 0);
    SettleReceiversFrame(TrackFrom(next, 0), i);
    hide TrackFrom;
    hide Close.SettleReceivers;
  }

  lemma {:induction false} StepStays(b: Both, step: Step)
    requires Inv(b) && Enabled(b, step)
    ensures Stays(b, Apply(b, step))
  {
    hide Inv;
    hide Stays;
    hide RouteIn;
    hide CloseRepliesIn;
    hide Close.Apply;
    match step {
      case Routes(s) => RouteStays(b, s);
      case Moves(s) => MovesStay(b, s);
      case ClosesReplies(i, scripts) => CloseRepliesStay(b, i, scripts);
    }
  }

  lemma {:induction false} WorksGrow(c: Close.Client, step: Close.Step)
    requires Close.Enabled(c, step)
    ensures |c.works| <= |Close.Apply(c, step).works|
  {
    if step.Run? { Close.TrackAllFrame(c, step.receivers); }
    hide Close.TrackAll;
  }

  lemma {:induction false} RouteStays(b: Both, step: RouterModel.Step)
    requires Inv(b) && Enabled(b, Routes(step))
    ensures Stays(b, RouteIn(b, step))
  {
    var next := b.(router := RouterModel.Apply(b.router, step), connection := Opens(b, step));
    OpensKnown(b, step);
    hide Inv;
    hide RouterModel.Apply;
    assert Stays(b, next);
    if IsClosing(step) {
      assert Stays(next, Forget(next, step.listener));
      StaysOn(b, next, Forget(next, step.listener));
    } else {
      TrackFromStays(next, 0);
      StaysOn(b, next, TrackFrom(next, 0));
    }
    hide Stays;
  }

  lemma {:induction false} RunStays(b: Both, steps: seq<Step>)
    requires Inv(b) && Legal(b, steps)
    ensures Stays(b, Exec(b, steps))
    decreases |steps|
  {
    if steps != [] {
      StepKeeps(b, steps[0]);
      StepStays(b, steps[0]);
      hide Inv;
      hide Apply;
      RunStays(Apply(b, steps[0]), steps[1..]);
      StaysOn(b, Apply(b, steps[0]), Exec(b, steps));
    }
  }

  /** The new promise of a listener on the connection in use is early. */
  lemma {:induction false} TrackFromEarly(b: Both, l: nat, k: nat)
    requires TrackedBelow(b, l) && l <= k < |b.router.all| && b.router.all[k].closed && k !in b.work
    requires b.client.current.Some? && ConnectionOf(b, k) == b.client.current
    ensures
      var e := TrackFrom(b, l);
      && k in e.work && e.work[k] < |e.client.works|
      && e.client.works[e.work[k]].early && e.client.works[e.work[k]].connection == b.client.current
    decreases |b.router.all| - l
  {
    if b.router.all[l].closed && l !in b.work {
      TrackOneTracked(b, l);
      if l == k {
        TrackFromStays(TrackOne(b, l), l + 1);
        hide TrackFrom;
      } else {
        hide TrackedBelow;
        TrackFromEarly(TrackOne(b, l), l + 1, k);
      }
    } else {
      SkipTracked(b, l);
      hide TrackedBelow;
      TrackFromEarly(b, l + 1, k);
    }
  }

  /** When `replies.close()` runs, every listener still open closes, and those on the connection in use are early. */
  lemma {:induction false} OpenOnesAreEarly(b: Both, i: nat, scripts: seq<seq<seq<Stop>>>, l: nat)
    requires Inv(b) && Enabled(b, ClosesReplies(i, scripts))
    requires l < |b.router.all| && !b.router.all[l].closed
    requires b.client.current.Some? && ConnectionOf(b, l) == b.client.current
    ensures
      var e := CloseRepliesIn(b, i, scripts);
      && l in e.work && e.work[l] < |e.client.works|
      && e.client.works[e.work[l]].early && e.client.works[e.work[l]].connection == b.client.current
  {
    var next := b.(router := RouterModel.Apply(b.router, CloseRouter(scripts)));
    Progress.InvOpenOnes(b.router);
    Progress.StepOnlyStarts(b.router, CloseRouter(scripts));
    OpenOneCloses(b.router, scripts, l);
    assert l !in b.work by { assert Tracked(b, l); }
    hide RI.Inv;
    hide CI.Inv;
    hide RouterModel.Apply;
    StartsTracked(b, next.router, b.connection);
    hide TrackedBelow;
    hide AllTracked;
    TrackFromEarly(next, 0, l);
    TrackFromFrame(next, 0);
    SettleReceiversFrame(TrackFrom(next, 0), i);
    hide TrackFrom;
    hide Close.SettleReceivers;
  }

  /** Those that were closing already are early too, and stay tracked. */
  lemma {:induction false} ClosingOnesAreEarly(b: Both, i: nat, scripts: seq<seq<seq<Stop>>>, l: nat)
    requires Inv(b) && Enabled(b, ClosesReplies(i, scripts))
    requires l < |b.router.all| && b.router.all[l].closed
    requires b.client.current.Some? && ConnectionOf(b, l) == b.client.current
    ensures
      var e := CloseRepliesIn(b, i, scripts);
      && l in e.work && e.work[l] < |e.client.works|
      && e.client.works[e.work[l]].early && e.client.works[e.work[l]].connection == b.client.current
  {
    assert Tracked(b, l);
    CloseRepliesStay(b, i, scripts);
    hide RI.Inv;
    hide CI.Inv;
    hide CloseRepliesIn;
  }

  lemma {:induction false} OpenOneCloses(r: Router, scripts: seq<seq<seq<Stop>>>, l: nat)
    requires RI.Inv(r) && l < |r.all| && !r.all[l].closed
    ensures
      var s := RouterModel.Apply(r, CloseRouter(scripts));
      l < |s.all| && s.all[l].closed
  {
    hide RI.Inv;
    hide FailListeners;
    hide Registered;
    hide FailAll;
    hide StopWaitingIn;
    RG.EveryListenerCloses(r, scripts);
    assert RouterModel.Apply(r, CloseRouter(scripts)) == FailListeners(r, Registered(r, 0), scripts);
    hide *;
  }

  /**
   * A connection outlives the receivers on it: every listener with its receiver
   * on the connection in use when `replies.close()` runs, open or closing by then,
   * has closed, in every run from there, when that connection is closed.
   */
  lemma {:induction false} ConnectionOutlivesReceivers(
      b: Both, i: nat, scripts: seq<seq<seq<Stop>>>, l: nat, steps: seq<Step>)
    requires Reachable(b) && Enabled(b, ClosesReplies(i, scripts))
    requires l < |b.router.all|
    requires b.client.current.Some? && ConnectionOf(b, l) == b.client.current
    requires Legal(CloseRepliesIn(b, i, scripts), steps)
    ensures
      var n, t := b.client.current.value, Exec(CloseRepliesIn(b, i, scripts), steps);
      && l < |t.router.all|
      && (n < |t.client.closeCalls| && t.client.closeCalls[n] >= 1 ==> t.router.all[l].closing.Settled?)
  {
    ReachableInv(b);
    var e := CloseRepliesIn(b, i, scripts);
    if b.router.all[l].closed {
      ClosingOnesAreEarly(b, i, scripts, l);
    } else {
      OpenOnesAreEarly(b, i, scripts, l);
    }
    StepKeeps(b, ClosesReplies(i, scripts));
    assert e == Apply(b, ClosesReplies(i, scripts));
    RunStays(e, steps);
    RunKeeps(e, steps);
    EarlyHasClosed(e, Exec(e, steps), l, b.client.current.value);
    hide *;
  }

  lemma {:induction false} EarlyHasClosed(e: Both, t: Both, l: nat, n: nat)
    requires Inv(t) && Stays(e, t)
    requires l in e.work && e.work[l] < |e.client.works|
    requires e.client.works[e.work[l]].early && e.client.works[e.work[l]].connection == Some(n)
    ensures l < |t.router.all|
    ensures n < |t.client.closeCalls| && t.client.closeCalls[n] >= 1 ==> t.router.all[l].closing.Settled?
  {
    assert l in t.work && t.work[l] == e.work[l];
    assert Tracked(t, l);
    if n < |t.client.closeCalls| && t.client.closeCalls[n] >= 1 {
      assert CI.ConnectionOk(t.client, n);
    }
    hide RI.Inv;
  }

  /** A listener that had no receiver by then never opens one. */
  lemma {:induction false} ClosedNeverOpens(b: Both, steps: seq<Step>, l: nat)
    requires Reachable(b) && Legal(b, steps) && l < |b.router.all| && b.router.all[l].closed
    ensures ConnectionOf(Exec(b, steps), l) == ConnectionOf(b, l)
  {
    ReachableInv(b);
    assert Tracked(b, l);
    RunStays(b, steps);
    hide Exec;
    hide Legal;
    hide RI.Inv;
    hide CI.Inv;
  }
}
