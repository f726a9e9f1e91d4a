/** What every step of the client keeps while any number of its `close()` calls go on. */
module ClientCloseInvariant {
  import opened Values
  import opened Timers
  import opened ClientClose

  /** How long past its deadline a call may still be in a phase. */
  function Slack(phase: Phase): real {
    match phase
    case SettlingSends(second) => if second then 2.0 * SEND_CANCEL_WAIT_MS else 0.0
    case AwaitingSends(_, _, _) => 0.0
    case AwaitingCancelled(second, _, _) => if second then 3.0 * SEND_CANCEL_WAIT_MS else SEND_CANCEL_WAIT_MS
    case ClosingReplies => SEND_CANCEL_WAIT_MS
    case AwaitingReceivers(_) => 2.0 * SEND_CANCEL_WAIT_MS
    case _ => 3.0 * SEND_CANCEL_WAIT_MS
  }

  /** The call still has its connection to take. */
  predicate Unfinished(phase: Phase) {
    !phase.Deferred? && !phase.Finished?
  }

  predicate AwaitsTimer(phase: Phase) {
    phase.AwaitingSends? || phase.AwaitingCancelled? || phase.AwaitingReceivers?
  }

  ghost predicate OnTime(now: real, timeout: Limit, x: Closer) {
    && x.begun <= now && x.deadline == DeadlineOf(x.begun, timeout)
    && (x.deadline.At? && Unfinished(x.phase) ==> now <= x.deadline.time + Slack(x.phase))
    && (x.deadline.At? && AwaitsTimer(x.phase) ==>
          Timer(x.phase).At? && now <= Timer(x.phase).time <= x.deadline.time + Slack(x.phase))
    && (x.phase.AwaitingCancelled? ==> x.deadline.At?)
    && (x.phase.AwaitingSends? ==> Timer(x.phase) == x.deadline)
    && (x.phase.AwaitingReceivers? ==> (x.deadline.Never? ==> Timer(x.phase).Never?))
    && (x.phase.AwaitingReceivers? && x.deadline.At? ==> x.deadline.time <= Timer(x.phase).time)
  }

  ghost predicate Clock(c: Client) {
    Honoured(c.timeout) && forall i :: 0 <= i < |c.closers| ==> OnTime(c.now, c.timeout, c.closers[i])
  }

  predicate WorkOk(connections: nat, w: Work) {
    && (w.connection.Some? ==> w.connection.value < connections)
    && (w.kind.Send? || w.early ==> w.connection.Some? && w.early)
    && (w.byClose ==> w.kind.Send?)
    && w.cancels == (if w.byClose then 1 else 0)
    && (w.byClose <==> w.cancel.Some?)
  }

  ghost predicate Works(c: Client) {
    forall k :: 0 <= k < |c.works| ==> WorkOk(|c.closeCalls|, c.works[k])
  }

  /** Everything that started on the connection while it was in use has settled, but for `except`. */
  ghost predicate Unused(works: seq<Work>, connection: nat, except: set<nat>) {
    forall k :: 0 <= k < |works| && works[k].connection == Some(connection) && works[k].early && k !in except ==>
      works[k].settled
  }

  predicate DeferredOn(x: Closer, connection: nat) {
    x.phase.Deferred? && x.phase.connection == connection
  }

  /** A connection that was taken is closed, once it is unused, or some call will close it. */
  ghost predicate ConnectionOk(c: Client, connection: nat)
    requires connection < |c.closeCalls|
  {
    && c.closeCalls[connection] <= 1
    && (c.closeCalls[connection] == 1 ==> c.current != Some(connection) && Unused(c.works, connection, {}))
    && (c.closeCalls[connection] == 0 && c.current != Some(connection) ==>
          exists i :: 0 <= i < |c.closers| && DeferredOn(c.closers[i], connection))
  }

  ghost predicate Connections(c: Client) {
    && (c.current.Some? ==> c.current.value + 1 == |c.closeCalls|)
    && forall n :: 0 <= n < |c.closeCalls| ==> ConnectionOk(c, n)
  }

  ghost predicate DeferralOk(c: Client, x: Closer) {
    x.phase.Deferred? ==>
      && x.phase.connection < |c.closeCalls| && c.closeCalls[x.phase.connection] == 0
      && c.current != Some(x.phase.connection)
      && Unused(c.works, x.phase.connection, x.phase.awaited)
  }

  ghost predicate Deferrals(c: Client) {
    && (forall i :: 0 <= i < |c.closers| ==> DeferralOk(c, c.closers[i]))
    && (forall i, j :: 0 <= i < j < |c.closers| && c.closers[i].phase.Deferred? && c.closers[j].phase.Deferred? ==>
          c.closers[i].phase.connection != c.closers[j].phase.connection)
  }

  ghost predicate Inv(c: Client) {
    Clock(c) && Works(c) && Connections(c) && Deferrals(c)
  }

  // ------------------------------------------- more work, and work that moves

  /** `next` has the works of `works`, some of them settled or cancelled meanwhile, and more. */
  ghost predicate Grows(c: Client, next: seq<Work>) {
    && |c.works| <= |next|
    && (forall k :: 0 <= k < |c.works| ==>
          && next[k].connection == c.works[k].connection && next[k].early == c.works[k].early
          && (c.works[k].settled ==> next[k].settled))
    && (forall k :: |c.works| <= k < |next| && next[k].early ==> c.current.Some? && c.current == next[k].connection)
  }

  lemma {:induction false} GrowsUnused(c: Client, next: seq<Work>, connection: nat, except: set<nat>)
    requires Grows(c, next) && Unused(c.works, connection, except) && c.current != Some(connection)
    ensures Unused(next, connection, except)
  {
  }

  lemma {:induction false} GrowsKeeps(c: Client, next: seq<Work>)
    requires Inv(c) && Grows(c, next) && Works(c.(works := next))
    ensures Inv(c.(works := next))
  {
    var e := c.(works := next);
    hide Grows;
    hide Works;
    hide Unused;
    hide OnTime;
    forall n | 0 <= n < |e.closeCalls| ensures ConnectionOk(e, n) {
      assert ConnectionOk(c, n);
      if c.closeCalls[n] == 1 { GrowsUnused(c, next, n, {}); }
    }
    forall i | 0 <= i < |e.closers| ensures DeferralOk(e, e.closers[i]) {
      var phase := c.closers[i].phase;
      assert DeferralOk(c, c.closers[i]);
      if phase.Deferred? { GrowsUnused(c, next, phase.connection, phase.awaited); }
    }
  }

  lemma {:induction false} BeginKeeps(c: Client, kind: Kind, connection: Option<nat>)
    requires Inv(c) && Known(c, connection)
    requires kind.Send? ==> c.current.Some? && c.current == connection
    ensures Inv(Begin(c, kind, connection))
  {
    GrowsKeeps(c, Begin(c, kind, connection).works);
    hide Connections;
    hide Deferrals;
  }

  lemma {:induction false} TrackAllKeeps(c: Client, receivers: seq<Option<nat>>)
    requires Inv(c) && AllKnown(c, receivers)
    ensures Inv(TrackAll(c, receivers))
    decreases |receivers|
  {
    hide Inv;
    if receivers != [] {
      BeginKeeps(c, ReceiverClosing, receivers[0]);
      TrackAllKeeps(Begin(c, ReceiverClosing, receivers[0]), receivers[1..]);
    }
  }

  lemma {:induction false} SettleKeeps(c: Client, k: nat)
    requires Inv(c) && Enabled(c, Settle(k))
    ensures Inv(Apply(c, Settle(k)))
  {
    GrowsKeeps(c, Apply(c, Settle(k)).works);
    hide Connections;
    hide Deferrals;
  }

  lemma {:induction false} CancelLiveKeeps(c: Client, cancel: Cancel)
    requires Inv(c)
    ensures Inv(c.(works := CancelLive(c.works, cancel)))
  {
    GrowsKeeps(c, CancelLive(c.works, cancel));
    hide Connections;
    hide Deferrals;
  }

  // -------------------------------------------------------- calls that move

  /** A call goes on without taking or closing a connection. */
  lemma {:induction false} MoveKeeps(c: Client, i: nat, phase: Phase)
    requires Inv(c) && i < |c.closers| && Unfinished(c.closers[i].phase) && !phase.Deferred?
    requires OnTime(c.now, c.timeout, c.closers[i].(phase := phase))
    ensures Inv(MoveTo(c, i, phase))
  {
    var e := MoveTo(c, i, phase);
    MoveDeferrals(c, i, phase);
    hide OnTime;
    hide Unused;
    hide Deferrals;
    forall n | 0 <= n < |e.closeCalls| ensures ConnectionOk(e, n) {
      assert ConnectionOk(c, n);
      if c.closeCalls[n] == 0 && c.current != Some(n) {
        var j :| 0 <= j < |c.closers| && DeferredOn(c.closers[j], n);
        assert DeferredOn(e.closers[j], n);
      }
    }
  }

  lemma {:induction false} MoveDeferrals(c: Client, i: nat, phase: Phase)
    requires Deferrals(c) && i < |c.closers| && Unfinished(c.closers[i].phase) && !phase.Deferred?
    ensures Deferrals(MoveTo(c, i, phase))
  {
    hide Unused;
    var e := MoveTo(c, i, phase);
    forall j | 0 <= j < |e.closers| ensures DeferralOk(e, e.closers[j]) {
      assert DeferralOk(c, c.closers[j]);
    }
  }

  lemma {:induction false} SettleSendsKeeps(c: Client, i: nat, second: bool)
    requires Inv(c) && i < |c.closers| && c.closers[i].phase == SettlingSends(second)
    ensures Inv(SettleSends(c, i, second))
  {
    var x := c.closers[i];
    assert OnTime(c.now, c.timeout, x);
    hide Connections;
    hide Deferrals;
    hide Works;
    var live := Live(c.works);
    if live == {} {
      MoveKeeps(c, i, AfterSends(second));
    } else if Before(c.now, x.deadline) {
      MoveKeeps(c, i, AwaitingSends(second, live, FiresAt(c.now, Left(x.deadline, c.now))));
    } else {
      CancelLiveKeeps(c, Cancel(i, c.now));
      MoveKeeps(c.(works := CancelLive(c.works, Cancel(i, c.now))), i,
                AwaitingCancelled(second, live, FiresAt(c.now, At(SEND_CANCEL_WAIT_MS))));
    }
  }

  lemma {:induction false} NoteRepliesKeeps(c: Client, i: nat)
    requires Inv(c) && i < |c.closers|
    ensures Inv(NoteReplies(c, i))
  {
    var e := NoteReplies(c, i);
    hide Unused;
    forall n | 0 <= n < |e.closeCalls| ensures ConnectionOk(e, n) {
      assert ConnectionOk(c, n);
      if c.closeCalls[n] == 0 && c.current != Some(n) {
        var j :| 0 <= j < |c.closers| && DeferredOn(c.closers[j], n);
        assert DeferredOn(e.closers[j], n);
      }
    }
    forall j | 0 <= j < |e.closers| ensures DeferralOk(e, e.closers[j]) { assert DeferralOk(c, c.closers[j]); }
    forall j | 0 <= j < |e.closers| ensures OnTime(e.now, e.timeout, e.closers[j]) {
      assert OnTime(c.now, c.timeout, c.closers[j]);
    }
  }

  lemma {:induction false} CloseRepliesKeeps(c: Client, i: nat, receivers: seq<Option<nat>>)
    requires Inv(c) && i < |c.closers| && c.closers[i].phase.ClosingReplies?
    requires AllKnown(c, receivers)
    ensures Inv(CloseReplies(c, i, receivers))
  {
    TrackAllKeeps(c, receivers);
    TrackAllFrame(c, receivers);
    var next := NoteReplies(TrackAll(c, receivers), i);
    NoteRepliesKeeps(TrackAll(c, receivers), i);
    assert OnTime(c.now, c.timeout, c.closers[i]);
    hide TrackAll;
    hide Connections;
    hide Deferrals;
    hide Works;
    if InFlight(next.works) == {} {
      MoveKeeps(next, i, SettlingSends(true));
    } else {
      MoveKeeps(next, i, AwaitingReceivers(FiresAt(c.now, ReceiversWait(c.closers[i].deadline, c.now))));
    }
  }

  /** A connection nothing uses is closed for the only time. */
  lemma {:induction false} CloseUnusedKeeps(c: Client, i: nat, n: nat)
    requires Inv(c) && i < |c.closers| && c.closers[i].phase.Deferred? && c.closers[i].phase.connection == n
    requires AllSettled(c.works, c.closers[i].phase.awaited)
    ensures n < |c.closeCalls| && Inv(MoveTo(CloseConnection(c, n), i, Finished))
  {
    assert DeferralOk(c, c.closers[i]);
    var e := MoveTo(CloseConnection(c, n), i, Finished);
    assert Unused(c.works, n, {});
    hide Unused;
    hide OnTime;
    forall j | 0 <= j < |e.closers| ensures DeferralOk(e, e.closers[j]) {
      assert DeferralOk(c, c.closers[j]);
    }
    forall m | 0 <= m < |e.closeCalls| ensures ConnectionOk(e, m) {
      assert ConnectionOk(c, m);
      if m != n && c.closeCalls[m] == 0 && c.current != Some(m) {
        var j :| 0 <= j < |c.closers| && DeferredOn(c.closers[j], m);
        assert DeferredOn(e.closers[j], m);
      }
    }
    assert forall k :: 0 <= k < |c.works| ==> WorkOk(|e.closeCalls|, c.works[k]);
    assert Clock(e) by { FinishedOnTime(c, i, e); }
  }

  lemma {:induction false} FinishedOnTime(c: Client, i: nat, e: Client)
    requires Clock(c) && i < |c.closers| && e.timeout == c.timeout && e.now == c.now
    requires e.closers == c.closers[i := c.closers[i].(phase := Finished)]
    ensures Clock(e)
  {
    assert OnTime(c.now, c.timeout, c.closers[i]);
  }

  /** The connection is taken: from now on some call is to close it. */
  lemma {:induction false} TakeKeeps(c: Client, i: nat)
    requires Inv(c) && i < |c.closers| && c.closers[i].phase.Swapping? && c.current.Some?
    ensures Inv(MoveTo(c.(current := None), i, Deferred(c.current.value, Unsettled(c.works))))
  {
    var n := c.current.value;
    var e := MoveTo(c.(current := None), i, Deferred(n, Unsettled(c.works)));
    assert ConnectionOk(c, n);
    assert DeferredOn(e.closers[i], n);
    assert Unused(c.works, n, Unsettled(c.works));
    assert Clock(e) by { assert OnTime(c.now, c.timeout, c.closers[i]); }
    hide Unused;
    hide OnTime;
    hide Unsettled;
    forall j | 0 <= j < |e.closers| ensures DeferralOk(e, e.closers[j]) {
      assert DeferralOk(c, c.closers[j]);
    }
    forall m | 0 <= m < |e.closeCalls| ensures ConnectionOk(e, m) {
      assert ConnectionOk(c, m);
      if m != n && c.closeCalls[m] == 0 {
        var j :| 0 <= j < |c.closers| && DeferredOn(c.closers[j], m);
        assert DeferredOn(e.closers[j], m);
      }
    }
  }

  lemma {:induction false} SwapKeeps(c: Client, i: nat)
    requires Inv(c) && i < |c.closers| && c.closers[i].phase.Swapping?
    ensures Inv(Swap(c, i))
  {
    if c.current.None? {
      assert c.(current := None) == c;
      assert OnTime(c.now, c.timeout, c.closers[i]);
      MoveKeeps(c, i, Finished);
    } else {
      var stuck, n := Unsettled(c.works), c.current.value;
      var taken := MoveTo(c.(current := None), i, Deferred(n, stuck));
      TakeKeeps(c, i);
      if stuck == {} {
        CloseUnusedKeeps(taken, i, n);
        assert MoveTo(CloseConnection(taken, n), i, Finished).closers
          == MoveTo(CloseConnection(c.(current := None), n), i, Finished).closers;
      }
    }
    hide Inv;
  }

  lemma {:induction false} RunKeeps(c: Client, i: nat, receivers: seq<Option<nat>>)
    requires Inv(c) && Enabled(c, Run(i, receivers))
    ensures Inv(RunIn(c, i, receivers))
  {
    var x := c.closers[i];
    assert OnTime(c.now, c.timeout, x);
    hide Connections;
    hide Deferrals;
    hide Works;
    match x.phase {
      case SettlingSends(second) => SettleSendsKeeps(c, i, second);
      case AwaitingSends(second, _, _) => MoveKeeps(c, i, SettlingSends(second));
      case AwaitingCancelled(second, _, _) => MoveKeeps(c, i, AfterSends(second));
      case ClosingReplies => CloseRepliesKeeps(c, i, receivers);
      case AwaitingReceivers(_) => MoveKeeps(c, i, SettlingSends(true));
      case Swapping => SwapKeeps(c, i);
      case Deferred(connection, _) => CloseUnusedKeeps(c, i, connection);
      case Finished =>
    }
  }

  lemma {:induction false} TickKeeps(c: Client, to: real)
    requires Inv(c) && Enabled(c, Tick(to))
    ensures Inv(Apply(c, Tick(to)))
  {
    var e := Apply(c, Tick(to));
    hide Unused;
    hide InFlight;
    hide AllSettled;
    forall i | 0 <= i < |e.closers| ensures OnTime(e.now, e.timeout, e.closers[i]) {
      assert OnTime(c.now, c.timeout, c.closers[i]);
      assert !Runnable(c, c.closers[i]) && NotPast(to, Timer(c.closers[i].phase));
    }
    forall n | 0 <= n < |e.closeCalls| ensures ConnectionOk(e, n) { assert ConnectionOk(c, n); }
    forall i | 0 <= i < |e.closers| ensures DeferralOk(e, e.closers[i]) { assert DeferralOk(c, c.closers[i]); }
  }

  lemma {:induction false} ConnectKeeps(c: Client)
    requires Inv(c) && Enabled(c, Connect)
    ensures Inv(Apply(c, Connect))
  {
    var e := Apply(c, Connect);
    hide Unused;
    hide OnTime;
    forall n | 0 <= n < |e.closeCalls| ensures ConnectionOk(e, n) {
      if n < |c.closeCalls| { assert ConnectionOk(c, n); }
    }
    forall i | 0 <= i < |e.closers| ensures DeferralOk(e, e.closers[i]) { assert DeferralOk(c, c.closers[i]); }
    forall k | 0 <= k < |e.works| ensures WorkOk(|e.closeCalls|, e.works[k]) {
      assert WorkOk(|c.closeCalls|, c.works[k]);
    }
  }

  lemma {:induction false} CloseKeeps(c: Client)
    requires Inv(c)
    ensures Inv(Apply(c, Close))
  {
    var e := Apply(c, Close);
    hide Unused;
    forall i | 0 <= i < |e.closers| ensures OnTime(e.now, e.timeout, e.closers[i]) {
      if i < |c.closers| { assert OnTime(c.now, c.timeout, c.closers[i]); }
    }
    forall n | 0 <= n < |e.closeCalls| ensures ConnectionOk(e, n) {
      assert ConnectionOk(c, n);
      if c.closeCalls[n] == 0 && c.current != Some(n) {
        var j :| 0 <= j < |c.closers| && DeferredOn(c.closers[j], n);
        assert DeferredOn(e.closers[j], n);
      }
    }
    forall i | 0 <= i < |e.closers| ensures DeferralOk(e, e.closers[i]) {
      if i < |c.closers| { assert DeferralOk(c, c.closers[i]); }
    }
  }

  lemma {:induction false} StepKeeps(c: Client, step: Step)
    requires Inv(c) && Enabled(c, step)
    ensures Inv(Apply(c, step))
  {
    match step {
      case Connect => ConnectKeeps(c);
      case StartSend => StartKeeps(c);
      case Track(connection) => BeginKeeps(c, ReceiverClosing, connection);
      case Settle(k) => SettleKeeps(c, k);
      case Close => CloseKeeps(c);
      case Run(i, receivers) => RunKeeps(c, i, receivers);
      case Tick(to) => TickKeeps(c, to);
    }
    hide Inv;
  }

  lemma {:induction false} StartKeeps(c: Client)
    requires Inv(c) && Enabled(c, StartSend)
    ensures Inv(Apply(c, StartSend))
  {
    assert ConnectionOk(c, c.current.value);
    BeginKeeps(c, Send, c.current);
    hide Inv;
  }

  lemma {:induction false} NewInv(timeout: Limit)
    requires Honoured(timeout)
    ensures Inv(NewClient(timeout))
  {
  }

  /** Every state of every run satisfies the invariant. */
  lemma {:induction false} ExecKeeps(c: Client, steps: seq<Step>)
    requires Inv(c) && Legal(c, steps)
    ensures Inv(Exec(c, steps))
    decreases |steps|
  {
    hide Inv;
    if steps != [] {
      StepKeeps(c, steps[0]);
      ExecKeeps(Apply(c, steps[0]), steps[1..]);
    }
  }
}
