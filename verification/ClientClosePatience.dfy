/** How long each call of `close()` waits for what it cancels and closes, over every run. */
module ClientClosePatience {
  import opened Values
  import opened Timers
  import opened ClientClose
  import opened ClientCloseInvariant

  /** The call is still waiting for the send it cancelled, for a second in all. */
  predicate AwaitsCancelled(phase: Phase, k: nat, at: real) {
    phase.AwaitingCancelled? && k in phase.awaited && phase.until == At(at + SEND_CANCEL_WAIT_MS)
  }

  /** A cancelled send was past its canceller's deadline, and gets another second. */
  ghost predicate SendPatience(c: Client, w: Work, k: nat) {
    w.cancel.Some? ==>
      var x := w.cancel.value;
      && x.closer < |c.closers| && x.at <= c.now && !Before(x.at, c.closers[x.closer].deadline)
      && (|| w.settled || c.now >= x.at + SEND_CANCEL_WAIT_MS
          || AwaitsCancelled(c.closers[x.closer].phase, k, x.at))
  }

  /** Every receiver that was closing when the call closed the replies has closed. */
  ghost predicate ReceiversClosed(works: seq<Work>, x: RepliesClosed) {
    forall k :: 0 <= k < |works| && k < x.works && works[k].kind.ReceiverClosing? ==> works[k].settled
  }

  /** The deadline is past, and a second since the replies were closed. */
  predicate Overdue(now: real, deadline: Limit, x: RepliesClosed) {
    !Before(now, deadline) && now >= x.at + SEND_CANCEL_WAIT_MS
  }

  /** The call is still waiting for the receivers, until both. */
  predicate AwaitsReceivers(phase: Phase, deadline: Limit, x: RepliesClosed) {
    && phase.AwaitingReceivers?
    && (phase.until.At? ==> Overdue(phase.until.time, deadline, x))
  }

  ghost predicate ReceiverPatience(c: Client, x: Closer) {
    x.replies.Some? ==>
      && x.replies.value.at <= c.now && x.replies.value.works <= |c.works|
      && (|| ReceiversClosed(c.works, x.replies.value)
          || Overdue(c.now, x.deadline, x.replies.value)
          || AwaitsReceivers(x.phase, x.deadline, x.replies.value))
  }

  ghost predicate Patience(c: Client) {
    && (forall k :: 0 <= k < |c.works| ==> SendPatience(c, c.works[k], k))
    && (forall i :: 0 <= i < |c.closers| ==> ReceiverPatience(c, c.closers[i]))
  }

  // ---------------------------------------------------- works and the clock

  /** Works settle and start, time passes; no call moves and none cancels. */
  lemma {:induction false} WorksMove(c: Client, e: Client)
    requires Patience(c) && c.now <= e.now && |c.works| <= |e.works|
    requires |c.closers| <= |e.closers| && e.closers[..|c.closers|] == c.closers
    requires forall i :: |c.closers| <= i < |e.closers| ==> e.closers[i].replies == None
    requires forall k :: 0 <= k < |c.works| ==>
      e.works[k] == c.works[k] || e.works[k] == c.works[k].(settled := true)
    requires forall k :: |c.works| <= k < |e.works| ==> e.works[k].cancel.None?
    ensures Patience(e)
  {
    forall k | 0 <= k < |e.works| ensures SendPatience(e, e.works[k], k) {
      if k < |c.works| {
        assert SendPatience(c, c.works[k], k);
        if c.works[k].cancel.Some? { assert e.closers[..|c.closers|][c.works[k].cancel.value.closer]
          == c.closers[c.works[k].cancel.value.closer]; }
      }
    }
    forall i | 0 <= i < |e.closers| ensures ReceiverPatience(e, e.closers[i]) {
      if i < |c.closers| {
        assert e.closers[i] == e.closers[..|c.closers|][i] == c.closers[i];
        assert ReceiverPatience(c, c.closers[i]);
      }
    }
  }

  lemma {:induction false} TrackAllNew(c: Client, receivers: seq<Option<nat>>, k: nat)
    requires |c.works| <= k < |TrackAll(c, receivers).works|
    ensures TrackAll(c, receivers).works[k].cancel.None? && TrackAll(c, receivers).works[k].kind.ReceiverClosing?
    ensures TrackAll(c, receivers).works[k].cancels == 0
    decreases |receivers|
  {
    if receivers != [] {
      var next := Begin(c, ReceiverClosing, receivers[0]);
      TrackAllFrame(next, receivers[1..]);
      if k >= |next.works| { TrackAllNew(next, receivers[1..], k); }
    }
  }

  // -------------------------------------------------------- calls that move

  /** A call moves on from a phase in which nobody waits for its patience. */
  lemma {:induction false} CallMoves(c: Client, i: nat, phase: Phase)
    requires Patience(c) && i < |c.closers|
    requires c.closers[i].phase.AwaitingCancelled? ==>
      AllSettled(c.works, c.closers[i].phase.awaited) || !Before(c.now, c.closers[i].phase.until)
    requires c.closers[i].phase.AwaitingReceivers? ==>
      InFlight(c.works) == {} || !Before(c.now, c.closers[i].phase.until)
    ensures Patience(MoveTo(c, i, phase))
  {
    var e := MoveTo(c, i, phase);
    forall k | 0 <= k < |e.works| ensures SendPatience(e, e.works[k], k) {
      assert SendPatience(c, c.works[k], k);
    }
    forall j | 0 <= j < |e.closers| ensures ReceiverPatience(e, e.closers[j]) {
      assert ReceiverPatience(c, c.closers[j]);
      if j == i && c.closers[i].phase.AwaitingReceivers? && InFlight(c.works) == {} {
        NoneInFlight(c.works);
      }
    }
  }

  lemma {:induction false} NoneInFlight(works: seq<Work>)
    requires InFlight(works) == {}
    ensures forall k :: 0 <= k < |works| && works[k].kind.ReceiverClosing? ==> works[k].settled
  {
    forall k: nat | k < |works| && works[k].kind.ReceiverClosing? && !works[k].settled ensures k in InFlight(works) {}
  }

  lemma {:induction false} CancelPatience(c: Client, i: nat, second: bool)
    requires Inv(c) && Patience(c) && i < |c.closers| && c.closers[i].phase == SettlingSends(second)
    requires !Before(c.now, c.closers[i].deadline)
    ensures
      var e := c.(works := CancelLive(c.works, Cancel(i, c.now)));
      Patience(MoveTo(e, i, AwaitingCancelled(second, Live(c.works), FiresAt(c.now, At(SEND_CANCEL_WAIT_MS)))))
  {
    var phase := AwaitingCancelled(second, Live(c.works), FiresAt(c.now, At(SEND_CANCEL_WAIT_MS)));
    var e := MoveTo(c.(works := CancelLive(c.works, Cancel(i, c.now))), i, phase);
    hide Connections;
    hide Deferrals;
    hide Clock;
    forall k | 0 <= k < |e.works| ensures SendPatience(e, e.works[k], k) {
      assert SendPatience(c, c.works[k], k);
      assert IsLive(c.works[k]) ==> k in Live(c.works);
    }
    forall j | 0 <= j < |e.closers| ensures ReceiverPatience(e, e.closers[j]) {
      assert ReceiverPatience(c, c.closers[j]);
    }
  }

  lemma {:induction false} SettleSendsPatience(c: Client, i: nat, second: bool)
    requires Inv(c) && Patience(c) && i < |c.closers| && c.closers[i].phase == SettlingSends(second)
    ensures Patience(SettleSends(c, i, second))
  {
    var x, live := c.closers[i], Live(c.works);
    hide Inv;
    hide Patience;
    if live == {} {
      CallMoves(c, i, AfterSends(second));
    } else if Before(c.now, x.deadline) {
      CallMoves(c, i, AwaitingSends(second, live, FiresAt(c.now, Left(x.deadline, c.now))));
    } else {
      CancelPatience(c, i, second);
    }
  }

  lemma {:induction false} TrackPatience(c: Client, receivers: seq<Option<nat>>)
    requires Patience(c)
    ensures Patience(TrackAll(c, receivers))
  {
    var e := TrackAll(c, receivers);
    TrackAllFrame(c, receivers);
    forall k | |c.works| <= k < |e.works| ensures e.works[k].cancel.None? { TrackAllNew(c, receivers, k); }
    forall k | 0 <= k < |c.works| ensures e.works[k] == c.works[k] {}
    hide TrackAll;
    WorksMove(c, e);
  }

  /** The call notes the moment and, if a receiver is closing, starts to wait. */
  lemma {:induction false} ClosePatience(c: Client, i: nat)
    requires Inv(c) && Patience(c) && i < |c.closers| && c.closers[i].phase.ClosingReplies?
    ensures
      var x, next := c.closers[i], NoteReplies(c, i);
      Patience(MoveTo(next, i, if InFlight(c.works) == {} then SettlingSends(true)
                               else AwaitingReceivers(FiresAt(c.now, ReceiversWait(x.deadline, c.now)))))
  {
    assert OnTime(c.now, c.timeout, c.closers[i]);
    var x, next := c.closers[i], NoteReplies(c, i);
    var phase := if InFlight(c.works) == {} then SettlingSends(true)
                 else AwaitingReceivers(FiresAt(c.now, ReceiversWait(x.deadline, c.now)));
    var e := MoveTo(next, i, phase);
    if InFlight(c.works) == {} { NoneInFlight(c.works); }
    hide Connections;
    hide Deferrals;
    hide Works;
    forall k | 0 <= k < |e.works| ensures SendPatience(e, e.works[k], k) {
      assert SendPatience(c, c.works[k], k);
    }
    forall j | 0 <= j < |e.closers| ensures ReceiverPatience(e, e.closers[j]) {
      assert ReceiverPatience(c, c.closers[j]);
    }
  }

  lemma {:induction false} CloseRepliesPatience(c: Client, i: nat, receivers: seq<Option<nat>>)
    requires Inv(c) && Patience(c) && i < |c.closers| && c.closers[i].phase.ClosingReplies? && AllKnown(c, receivers)
    ensures Patience(CloseReplies(c, i, receivers))
  {
    TrackAllFrame(c, receivers);
    TrackAllKeeps(c, receivers);
    TrackPatience(c, receivers);
    hide Inv;
    hide Patience;
    hide TrackAll;
    ClosePatience(TrackAll(c, receivers), i);
  }

  lemma {:induction false} RunPatience(c: Client, i: nat, receivers: seq<Option<nat>>)
    requires Inv(c) && Patience(c) && Enabled(c, Run(i, receivers))
    ensures Patience(RunIn(c, i, receivers))
  {
    hide Inv;
    hide Patience;
    match c.closers[i].phase {
      case SettlingSends(second) => SettleSendsPatience(c, i, second);
      case AwaitingSends(second, _, _) => CallMoves(c, i, SettlingSends(second));
      case AwaitingCancelled(second, _, _) => CallMoves(c, i, AfterSends(second));
      case ClosingReplies => CloseRepliesPatience(c, i, receivers);
      case AwaitingReceivers(_) => CallMoves(c, i, SettlingSends(true));
      case Swapping => SwapPatience(c, i);
      case Deferred(connection, _) =>
        SamePatience(c, CloseConnection(c, connection));
        CallMoves(CloseConnection(c, connection), i, Finished);
      case Finished =>
    }
  }

  /** The connections are no concern of it. */
  lemma {:induction false} SamePatience(c: Client, e: Client)
    requires Patience(c) && e.works == c.works && e.closers == c.closers && e.now == c.now
    ensures Patience(e)
  {
    WorksMove(c, e);
  }

  lemma {:induction false} SwapPatience(c: Client, i: nat)
    requires Patience(c) && i < |c.closers| && c.closers[i].phase.Swapping?
    ensures Patience(Swap(c, i))
  {
    var next := c.(current := None);
    hide Patience;
    SamePatience(c, next);
    if c.current.None? {
      CallMoves(next, i, Finished);
    } else if Unsettled(c.works) != {} {
      CallMoves(next, i, Deferred(c.current.value, Unsettled(c.works)));
    } else {
      SamePatience(next, CloseConnection(next, c.current.value));
      CallMoves(CloseConnection(next, c.current.value), i, Finished);
    }
  }

  lemma {:induction false} StepPatience(c: Client, step: Step)
    requires Inv(c) && Patience(c) && Enabled(c, step)
    ensures Patience(Apply(c, step))
  {
    if step.Run? {
      RunPatience(c, step.closer, step.receivers);
      hide Patience;
    } else {
      hide Inv;
      hide SendPatience;
      hide ReceiverPatience;
      WorksMove(c, Apply(c, step));
    }
  }

  lemma {:induction false} ExecPatience(c: Client, steps: seq<Step>)
    requires Inv(c) && Patience(c) && Legal(c, steps)
    ensures Patience(Exec(c, steps))
    decreases |steps|
  {
    hide Inv;
    hide Patience;
    if steps != [] {
      StepKeeps(c, steps[0]);
      StepPatience(c, steps[0]);
      ExecPatience(Apply(c, steps[0]), steps[1..]);
    }
  }
}
