/** What every run of the client's `close()` guarantees. */
module ClientCloseGuarantees {
  import opened Values
  import opened Timers
  import opened ClientClose
  import opened ClientCloseInvariant
  import opened ClientClosePatience

  /** Whether some run of a client whose `closeTimeoutInMs` a timer honours reaches `c`. */
  ghost predicate Reachable(c: Client) {
    && Honoured(c.timeout)
    && exists steps :: Legal(NewClient(c.timeout), steps) && Exec(NewClient(c.timeout), steps) == c
  }

  lemma {:induction false} ReachableInv(c: Client)
    requires Reachable(c)
    ensures Inv(c) && Patience(c)
  {
    var steps :| Legal(NewClient(c.timeout), steps) && Exec(NewClient(c.timeout), steps) == c;
    NewInv(c.timeout);
    ExecKeeps(NewClient(c.timeout), steps);
    ExecPatience(NewClient(c.timeout), steps);
    hide *;
  }

  // ------------------------------------------------------------- connections

  /**
   * No connection is closed twice, or closed while it is in use, or while a send
   * or a closing receiver that was on it before it was taken has not settled. And
   * none is forgotten: one that was taken and is still open has exactly one call
   * of `close()` that will close it.
   */
  lemma {:induction false} ConnectionsAreSafe(c: Client, n: nat)
    requires Reachable(c) && n < |c.closeCalls|
    ensures c.closeCalls[n] <= 1
    ensures c.closeCalls[n] == 1 ==> c.current != Some(n) && Unused(c.works, n, {})
    ensures c.closeCalls[n] == 0 && c.current != Some(n) ==>
      exists i :: 0 <= i < |c.closers| && DeferredOn(c.closers[i], n)
    ensures forall i, j :: 0 <= i < |c.closers| && 0 <= j < |c.closers| ==>
      DeferredOn(c.closers[i], n) && DeferredOn(c.closers[j], n) ==> i == j
  {
    ReachableInv(c);
    assert ConnectionOk(c, n);
    hide Unused;
    hide OnTime;
    hide Works;
  }

  /** A send starts on a connection nobody has closed or taken, even while others close. */
  lemma {:induction false} SendsUseOpenConnection(c: Client)
    requires Reachable(c) && Enabled(c, StartSend)
    ensures
      var w := Apply(c, StartSend).works[|c.works|];
      && w.kind.Send? && w.early && w.connection.Some? && c.current == w.connection
      && w.connection.value < |c.closeCalls| && c.closeCalls[w.connection.value] == 0
      && forall i :: 0 <= i < |c.closers| ==> !DeferredOn(c.closers[i], w.connection.value)
  {
    ReachableInv(c);
    assert ConnectionOk(c, c.current.value);
    forall i | 0 <= i < |c.closers| ensures !DeferredOn(c.closers[i], c.current.value) {
      assert DeferralOk(c, c.closers[i]);
    }
    hide Unused;
  }

  // -------------------------------------------------------------------- time

  /**
   * With a finite timeout, a call of `close()` has taken its connection within
   * the timeout and three seconds, whatever the sends and the receivers do.
   */
  lemma {:induction false} CloseIsBounded(c: Client, i: nat)
    requires Reachable(c) && i < |c.closers| && c.timeout.At?
    ensures
      c.now <= c.closers[i].begun + c.timeout.time + 3.0 * SEND_CANCEL_WAIT_MS
      || !Unfinished(c.closers[i].phase)
  {
    ReachableInv(c);
    assert OnTime(c.now, c.timeout, c.closers[i]);
  }

  /** Time never stops: when no call can run, the clock can move on. */
  lemma {:induction false} TimeMovesOn(c: Client)
    requires Reachable(c)
    ensures
      || (exists i :: 0 <= i < |c.closers| && Enabled(c, Run(i, [])))
      || (exists to :: Enabled(c, Tick(to)))
  {
    if i :| 0 <= i < |c.closers| && Runnable(c, c.closers[i]) {
      assert Enabled(c, Run(i, []));
    } else {
      var to := EarliestTimer(c, |c.closers|);
      assert Enabled(c, Tick(to));
    }
  }

  lemma {:induction false} EarliestTimer(c: Client, n: nat) returns (to: real)
    requires n <= |c.closers| && forall i :: 0 <= i < |c.closers| ==> !Runnable(c, c.closers[i])
    ensures c.now < to && forall i :: 0 <= i < n ==> NotPast(to, Timer(c.closers[i].phase))
  {
    to := c.now + 1.0;
    if n > 0 {
      var earlier := EarliestTimer(c, n - 1);
      var last := Timer(c.closers[n - 1].phase);
      assert !Runnable(c, c.closers[n - 1]);
      to := if last.At? && last.time < earlier then last.time else earlier;
    }
  }

  ghost predicate ClosedAtOnce(c: Client, e: Client, i: nat) {
    && e.now == c.now && e.current == None
    && i < |e.closers| && e.closers[i].phase.Finished?
    && (c.current.Some? ==> c.current.value < |e.closeCalls| && e.closeCalls[c.current.value] == 1)
  }

  /** With nothing in flight, `close()` closes the connection without waiting. */
  lemma {:induction false} NothingInFlightNoWait(c: Client, i: nat)
    requires Reachable(c) && i < |c.closers| && c.closers[i].phase == SettlingSends(false)
    requires Unsettled(c.works) == {}
    ensures
      var steps := [Run(i, []), Run(i, []), Run(i, []), Run(i, [])];
      Legal(c, steps) && ClosedAtOnce(c, Exec(c, steps), i)
  {
    var run := Run(i, []);
    ReachableInv(c);
    if c.current.Some? { assert ConnectionOk(c, c.current.value); }
    NothingIn(c.works);
    hide Inv;
    var c1 := MoveTo(c, i, ClosingReplies);
    var c2 := MoveTo(NoteReplies(c1, i), i, SettlingSends(true));
    var c3 := MoveTo(c2, i, Swapping);
    assert Apply(c, run) == c1;
    assert Apply(c1, run) == c2;
    assert Apply(c2, run) == c3;
    RunCons(c3, i, []);
    RunCons(c2, i, [run]);
    RunCons(c1, i, [run, run]);
    RunCons(c, i, [run, run, run]);
  }

  lemma {:induction false} NothingIn(works: seq<Work>)
    requires Unsettled(works) == {}
    ensures Live(works) == {} && InFlight(works) == {}
  {
    assert Live(works) <= Unsettled(works) && InFlight(works) <= Unsettled(works);
  }

  lemma {:induction false} RunCons(c: Client, i: nat, rest: seq<Step>)
    requires Enabled(c, Run(i, [])) && Legal(Apply(c, Run(i, [])), rest)
    ensures
      var steps := [Run(i, [])] + rest;
      Legal(c, steps) && Exec(c, steps) == Exec(Apply(c, Run(i, [])), rest)
  {
    assert ([Run(i, [])] + rest)[1..] == rest;
  }

  // ------------------------------------------------------------ cancellation

  /** No send is cancelled twice over all calls of `close()`, and no closing is. */
  lemma {:induction false} CancelledOnce(c: Client, k: nat)
    requires Reachable(c) && k < |c.works|
    ensures c.works[k].cancels <= 1
    ensures c.works[k].kind.ReceiverClosing? ==> c.works[k].cancels == 0
  {
    ReachableInv(c);
    assert WorkOk(|c.closeCalls|, c.works[k]);
  }

  /** Only a call past its deadline cancels, and only sends still in flight. */
  lemma {:induction false} CancelsPastDeadline(c: Client, step: Step, k: nat)
    requires Enabled(c, step) && k < |c.works|
    ensures k < |Apply(c, step).works|
    ensures Apply(c, step).works[k].cancels != c.works[k].cancels ==>
      && step.Run? && c.closers[step.closer].phase.SettlingSends?
      && !Before(c.now, c.closers[step.closer].deadline)
      && !c.works[k].settled && c.works[k].kind.Send? && !c.works[k].byClose
      && Apply(c, step).works[k].cancels == c.works[k].cancels + 1
  {
    if step.Run? { TrackAllFrame(c, step.receivers); }
    hide TrackAll;
  }

  /** What a call has waited for when it goes on from `settleSends()`. */
  ghost predicate Waited(c: Client, x: Closer) {
    match x.phase
    case SettlingSends(_) => forall k :: 0 <= k < |c.works| && IsLive(c.works[k]) ==> !Before(c.now, x.deadline)
    case AwaitingSends(_, awaited, _) => AllSettled(c.works, awaited) || !Before(c.now, x.deadline)
    case _ => true
  }

  /** No call goes on early: sends in flight have settled, or had until its deadline. */
  lemma {:induction false} NoCallGoesOnEarly(c: Client, i: nat, receivers: seq<Option<nat>>)
    requires Reachable(c) && Enabled(c, Run(i, receivers))
    requires c.closers[i].phase.SettlingSends? ==>
      !Apply(c, Run(i, receivers)).closers[i].phase.AwaitingSends?
    ensures Waited(c, c.closers[i])
  {
    ReachableInv(c);
    assert OnTime(c.now, c.timeout, c.closers[i]);
    forall k: nat | k < |c.works| && IsLive(c.works[k]) ensures k in Live(c.works) {}
    hide Patience;
    hide Connections;
    hide Deferrals;
    hide Works;
  }

  /**
   * A send was cancelled past the deadline of the call that cancelled it, never
   * when that call waits for ever; and that call goes on only once the send has
   * settled, or a second later.
   */
  lemma {:induction false} CancelledSendsGetASecond(c: Client, k: nat)
    requires Reachable(c) && k < |c.works| && c.works[k].byClose
    ensures
      c.works[k].cancel.Some?
      && var x := c.works[k].cancel.value;
      && x.closer < |c.closers| && x.at <= c.now && !Before(x.at, c.closers[x.closer].deadline)
      && (c.closers[x.closer].phase.AwaitingCancelled?
          || c.works[k].settled || c.now >= x.at + SEND_CANCEL_WAIT_MS)
    ensures c.timeout.At?
  {
    ReachableInv(c);
    assert WorkOk(|c.closeCalls|, c.works[k]);
    assert SendPatience(c, c.works[k], k);
    var x := c.works[k].cancel.value;
    assert OnTime(c.now, c.timeout, c.closers[x.closer]);
  }

  /**
   * Once a call has closed the replies, it goes on only when every receiver that
   * was closing then has closed, or both its deadline and a second are past.
   */
  lemma {:induction false} ReceiversGetTheirTime(c: Client, i: nat)
    requires Reachable(c) && i < |c.closers| && c.closers[i].replies.Some?
    requires !c.closers[i].phase.AwaitingReceivers?
    ensures
      var x := c.closers[i];
      ReceiversClosed(c.works, x.replies.value) || Overdue(c.now, x.deadline, x.replies.value)
  {
    ReachableInv(c);
    assert ReceiverPatience(c, c.closers[i]);
  }
}
