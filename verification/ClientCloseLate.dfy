/**
 * The receivers that close too late: `close()` waits for the receivers closing
 * on its connection, but one that starts to close once the connection was taken
 * is not waited for. When that breaks "no connection is closed under a receiver
 * that is still closing", exactly.
 */
module ClientCloseLate {
  import opened Values
  import opened Timers
  import opened ClientClose
  import opened ClientCloseInvariant
  import opened ClientCloseGuarantees

  /** The connection is open, or everything that ever was on it has settled. */
  ghost predicate Safe(c: Client, n: nat) {
    n < |c.closeCalls| && c.closeCalls[n] >= 1 ==>
      forall k :: 0 <= k < |c.works| && c.works[k].connection == Some(n) ==> c.works[k].settled
  }

  /** The step tracks a receiver closing on the connection. */
  predicate Tracks(c: Client, step: Step, n: nat) {
    || step == Track(Some(n))
    || (step.Run? && step.closer < |c.closers| && c.closers[step.closer].phase.ClosingReplies?
        && Some(n) in step.receivers)
  }

  /** The step closes the connection that a call took earlier. */
  predicate ClosesDeferred(c: Client, step: Step, n: nat) {
    step.Run? && step.closer < |c.closers| && DeferredOn(c.closers[step.closer], n)
  }

  /**
   * The step finds a receiver too late: it starts to close on a connection that
   * is closed, or is still closing on one that is closed now.
   */
  ghost predicate TooLate(c: Client, step: Step, n: nat) {
    || (Tracks(c, step, n) && n < |c.closeCalls| && c.closeCalls[n] >= 1)
    || (ClosesDeferred(c, step, n)
        && exists k :: 0 <= k < |c.works| && c.works[k].connection == Some(n) && !c.works[k].settled)
  }

  // --------------------------------------------------- what the works remember

  lemma {:induction false} TrackAllWorks(c: Client, receivers: seq<Option<nat>>, k: nat)
    requires k < |receivers|
    ensures |TrackAll(c, receivers).works| == |c.works| + |receivers|
    ensures
      var w := TrackAll(c, receivers).works[|c.works| + k];
      w.connection == receivers[k] && !w.settled && w.kind.ReceiverClosing?
    ensures TrackAll(c, receivers).works[|c.works| + k].early
      <==> receivers[k].Some? && c.current == receivers[k]
    decreases |receivers|
  {
    var next := Begin(c, ReceiverClosing, receivers[0]);
    TrackAllFrame(next, receivers[1..]);
    if k > 0 {
      TrackAllWorks(next, receivers[1..], k - 1);
    } else {
      TrackAllCount(next, receivers[1..]);
    }
  }

  lemma {:induction false} TrackAllCount(c: Client, receivers: seq<Option<nat>>)
    ensures |TrackAll(c, receivers).works| == |c.works| + |receivers|
    decreases |receivers|
  {
    if receivers != [] { TrackAllCount(Begin(c, ReceiverClosing, receivers[0]), receivers[1..]); }
  }

  /** What a work is and where it is never changes, and it does not unsettle. */
  lemma {:induction false} WorkStays(c: Client, step: Step, k: nat)
    requires Enabled(c, step) && k < |c.works|
    ensures
      k < |Apply(c, step).works|
      && var w, v := c.works[k], Apply(c, step).works[k];
      && v.kind == w.kind && v.connection == w.connection && v.early == w.early && (w.settled ==> v.settled)
      && (v.settled && !w.settled ==> step == Settle(k))
    ensures |c.closeCalls| <= |Apply(c, step).closeCalls|
    ensures forall n :: 0 <= n < |c.closeCalls| ==> c.closeCalls[n] <= Apply(c, step).closeCalls[n]
  {
    if step.Run? { TrackAllFrame(c, step.receivers); }
    hide TrackAll;
  }

  /** A new work is early exactly when its connection is the one in use: this is all that `early` says. */
  lemma {:induction false} EarlyWhenCurrent(c: Client, step: Step, k: nat)
    requires Enabled(c, step) && |c.works| <= k < |Apply(c, step).works|
    ensures
      var w := Apply(c, step).works[k];
      && (w.early <==> w.connection.Some? && c.current == w.connection)
      && !w.settled
      && (w.connection.Some? && w.kind.ReceiverClosing? ==> Tracks(c, step, w.connection.value))
      && (w.kind.Send? ==> step.StartSend? && w.connection == c.current)
  {
    if step.Run? && c.closers[step.closer].phase.ClosingReplies? {
      TrackAllCount(c, step.receivers);
      TrackAllWorks(c, step.receivers, k - |c.works|);
    }
    hide TrackAll;
  }

  /** Whatever is on the connection in use started on it while it was in use. */
  ghost predicate CurrentIsEarly(c: Client) {
    c.current.Some? ==> forall k :: 0 <= k < |c.works| && c.works[k].connection == c.current ==> c.works[k].early
  }

  lemma {:induction false} StepCurrentIsEarly(c: Client, step: Step)
    requires Inv(c) && CurrentIsEarly(c) && Enabled(c, step)
    ensures CurrentIsEarly(Apply(c, step))
  {
    var e := Apply(c, step);
    CurrentMoves(c, step);
    hide Clock;
    hide Connections;
    hide Deferrals;
    hide Apply;
    hide Enabled;
    if e.current.Some? {
      forall k | 0 <= k < |e.works| && e.works[k].connection == e.current ensures e.works[k].early {
        if k < |c.works| {
          WorkStays(c, step, k);
          assert WorkOk(|c.closeCalls|, c.works[k]);
        } else {
          EarlyWhenCurrent(c, step, k);
        }
      }
    }
  }

  /** The connection in use stays, is taken, or is a new one, with which no work starts. */
  lemma {:induction false} CurrentMoves(c: Client, step: Step)
    requires Enabled(c, step)
    ensures
      var e := Apply(c, step);
      || e.current == c.current || e.current.None?
      || (e.current == Some(|c.closeCalls|) && c.current.None? && |e.works| == |c.works|)
  {
    if step.Run? { TrackAllFrame(c, step.receivers); }
    hide TrackAll;
  }

  // ---------------------------------------------------------- the condition

  /**
   * Whatever is unsettled on a closed connection is a receiver whose closing was
   * tracked when the connection was no longer in use.
   */
  lemma {:induction false} OnlyLateReceivers(c: Client, n: nat, k: nat)
    requires Reachable(c) && n < |c.closeCalls| && c.closeCalls[n] >= 1
    requires k < |c.works| && c.works[k].connection == Some(n) && !c.works[k].settled
    ensures c.works[k].kind.ReceiverClosing? && !c.works[k].early
  {
    ReachableInv(c);
    assert ConnectionOk(c, n) && WorkOk(|c.closeCalls|, c.works[k]);
  }

  lemma {:induction false} TooLateBreaks(c: Client, step: Step, n: nat)
    requires Inv(c) && Enabled(c, step) && TooLate(c, step, n)
    ensures !Safe(Apply(c, step), n)
  {
    var e := Apply(c, step);
    hide Inv;
    if Tracks(c, step, n) && n < |c.closeCalls| && c.closeCalls[n] >= 1 {
      if step.Run? {
        var j :| 0 <= j < |step.receivers| && step.receivers[j] == Some(n);
        TrackAllFrame(c, step.receivers);
        TrackAllWorks(c, step.receivers, j);
        hide TrackAll;
        assert e.works[|c.works| + j].connection == Some(n);
      } else {
        assert e.works[|c.works|].connection == Some(n);
      }
    } else {
      DeferredKnown(c, step.closer, n);
      var k :| 0 <= k < |c.works| && c.works[k].connection == Some(n) && !c.works[k].settled;
      assert e.works[k] == c.works[k];
    }
  }

  lemma {:induction false} DeferredKnown(c: Client, i: nat, n: nat)
    requires Inv(c) && i < |c.closers| && DeferredOn(c.closers[i], n)
    ensures n < |c.closeCalls|
  {
    assert DeferralOk(c, c.closers[i]);
  }

  lemma {:induction false} OtherStepsAreSafe(c: Client, step: Step, n: nat)
    requires Inv(c) && Enabled(c, step) && Safe(c, n) && !TooLate(c, step, n)
    ensures Safe(Apply(c, step), n)
  {
    var e := Apply(c, step);
    StepKeeps(c, step);
    if n < |e.closeCalls| && e.closeCalls[n] >= 1 {
      assert ConnectionOk(e, n);
      forall k | 0 <= k < |e.works| && e.works[k].connection == Some(n) ensures e.works[k].settled {
        SettledInTime(c, step, n, k);
      }
    }
  }

  lemma {:induction false} SettledInTime(c: Client, step: Step, n: nat, k: nat)
    requires Inv(c) && Enabled(c, step) && Safe(c, n) && !TooLate(c, step, n) && Inv(Apply(c, step))
    requires
      var e := Apply(c, step);
      && n < |e.closeCalls| && e.closeCalls[n] >= 1
      && k < |e.works| && e.works[k].connection == Some(n)
    ensures Apply(c, step).works[k].settled
  {
    var e := Apply(c, step);
    assert ConnectionOk(e, n);
    hide Clock;
    hide Deferrals;
    if k >= |c.works| {
      EarlyWhenCurrent(c, step, k);
      NewOnClosed(c, step, n, k);
    } else if !e.works[k].settled {
      WorkStays(c, step, k);
      ClosedNow(c, step, n);
      HasUnsettled(c.works, k);
    }
  }

  lemma {:induction false} HasUnsettled(works: seq<Work>, k: nat)
    requires k < |works| && !works[k].settled
    ensures Unsettled(works) != {}
  {
    assert k in Unsettled(works);
  }

  lemma {:induction false} CurrentIsOpen(c: Client)
    requires Inv(c)
    ensures c.current.Some? ==> c.current.value < |c.closeCalls| && c.closeCalls[c.current.value] == 0
  {
    if c.current.Some? { assert ConnectionOk(c, c.current.value); }
  }

  /** Nothing starts on a connection that is closed, but for a receiver that is too late. */
  lemma {:induction false} NewOnClosed(c: Client, step: Step, n: nat, k: nat)
    requires Inv(c) && Enabled(c, step) && |c.works| <= k < |Apply(c, step).works|
    requires Apply(c, step).works[k].connection == Some(n)
    requires n < |Apply(c, step).closeCalls| && Apply(c, step).closeCalls[n] >= 1
    ensures TooLate(c, step, n)
  {
    EarlyWhenCurrent(c, step, k);
    if step.Run? { TrackAllFrame(c, step.receivers); }
    hide TrackAll;
    CurrentIsOpen(c);
    hide Inv;
  }

  /** A step that closes the connection: nothing is in flight, or an earlier call took it. */
  lemma {:induction false} ClosedNow(c: Client, step: Step, n: nat)
    requires Enabled(c, step)
    requires n < |Apply(c, step).closeCalls| && Apply(c, step).closeCalls[n] >= 1
    ensures
      || (n < |c.closeCalls| && c.closeCalls[n] >= 1)
      || ClosesDeferred(c, step, n)
      || Unsettled(c.works) == {}
  {
    if step.Run? { TrackAllFrame(c, step.receivers); }
    hide TrackAll;
    hide Unsettled;
  }

  /**
   * The exact condition: a step leaves a connection closed under something that
   * has not settled if and only if it finds a receiver too late.
   */
  lemma {:induction false} BreaksExactlyWhenTooLate(c: Client, step: Step, n: nat)
    requires Reachable(c) && Enabled(c, step) && Safe(c, n)
    ensures Safe(Apply(c, step), n) <==> !TooLate(c, step, n)
  {
    ReachableInv(c);
    if TooLate(c, step, n) {
      TooLateBreaks(c, step, n);
    } else {
      OtherStepsAreSafe(c, step, n);
    }
    hide *;
  }

  /** The connection is safe in every state of the run. */
  ghost predicate SafeThroughout(c: Client, steps: seq<Step>, n: nat)
    requires Legal(c, steps)
    decreases |steps|
  {
    Safe(c, n) && (steps != [] ==> SafeThroughout(Apply(c, steps[0]), steps[1..], n))
  }

  /** No step of the run finds a receiver too late. */
  ghost predicate NeverTooLate(c: Client, steps: seq<Step>, n: nat)
    requires Legal(c, steps)
    decreases |steps|
  {
    steps != [] ==> !TooLate(c, steps[0], n) && NeverTooLate(Apply(c, steps[0]), steps[1..], n)
  }

  lemma {:induction false} SafeUnlessLate(c: Client, steps: seq<Step>, n: nat)
    requires Inv(c) && Safe(c, n) && Legal(c, steps)
    ensures SafeThroughout(c, steps, n) <==> NeverTooLate(c, steps, n)
    decreases |steps|
  {
    hide Inv;
    hide Safe;
    hide TooLate;
    if steps != [] {
      var e := Apply(c, steps[0]);
      StepKeeps(c, steps[0]);
      if TooLate(c, steps[0], n) {
        TooLateBreaks(c, steps[0], n);
        if SafeThroughout(c, steps, n) { SafeNow(e, steps[1..], n); }
      } else {
        OtherStepsAreSafe(c, steps[0], n);
        SafeUnlessLate(e, steps[1..], n);
      }
    }
  }

  lemma {:induction false} SafeNow(c: Client, steps: seq<Step>, n: nat)
    requires Legal(c, steps) && SafeThroughout(c, steps, n)
    ensures Safe(c, n)
  {
  }

  /** Of every run: a connection is never closed under anything exactly when no receiver came too late. */
  lemma {:induction false} RunIsSafeExactly(timeout: Limit, steps: seq<Step>, n: nat)
    requires Honoured(timeout) && Legal(NewClient(timeout), steps)
    ensures SafeThroughout(NewClient(timeout), steps, n) <==> NeverTooLate(NewClient(timeout), steps, n)
  {
    NewInv(timeout);
    SafeUnlessLate(NewClient(timeout), steps, n);
    hide SafeThroughout;
    hide NeverTooLate;
  }

  // ------------------------------------------------------------- the witness

  lemma {:induction false} Cons(c: Client, step: Step, rest: seq<Step>)
    requires Enabled(c, step) && Legal(Apply(c, step), rest)
    ensures Legal(c, [step] + rest) && Exec(c, [step] + rest) == Exec(Apply(c, step), rest)
  {
    assert ([step] + rest)[1..] == rest;
  }

  /**
   * It happens to every client with a connection and nothing in flight that
   * closes: a request sent after the replies were closed opens a receiver on the
   * old connection, and its send settles at once; the connection is closed; and
   * when the request ends, its receiver starts to close.
   */
  lemma {:induction false} LateReceiver(c: Client, i: nat) returns (steps: seq<Step>)
    requires Reachable(c) && i < |c.closers| && c.closers[i].phase == SettlingSends(false)
    requires c.current.Some? && Unsettled(c.works) == {}
    ensures Legal(c, steps) && steps != [] && steps[|steps| - 1] == Track(c.current)
    ensures !Safe(Exec(c, steps), c.current.value)
  {
    var n, k := c.current.value, |c.works|;
    ReachableInv(c);
    assert ConnectionOk(c, n);
    NothingIn(c.works);
    hide Inv;
    var run, track := Run(i, []), Track(Some(n));
    var c1 := MoveTo(c, i, ClosingReplies);
    var c2 := MoveTo(NoteReplies(c1, i), i, SettlingSends(true));
    var sent := Begin(c2, Send, Some(n));
    var c3 := sent.(works := sent.works[k := sent.works[k].(settled := true)]);
    assert Unsettled(c3.works) == {} by { SentSettled(c2.works, sent.works[k]); }
    NothingIn(c3.works);
    var c4 := MoveTo(c3, i, Swapping);
    assert Apply(c, run) == c1 && Apply(c1, run) == c2;
    assert Apply(c2, StartSend) == sent && Apply(sent, Settle(k)) == c3;
    assert Apply(c3, run) == c4;
    var c5 := Apply(c4, run);
    assert c5.closeCalls[n] == 1;
    LateTrack(c5, n);
    assert Legal(Apply(c5, track), []);
    Cons(c5, track, []);
    Cons(c4, run, [track]);
    Cons(c3, run, [run] + [track]);
    Cons(sent, Settle(k), [run] + ([run] + [track]));
    Cons(c2, StartSend, [Settle(k)] + ([run] + ([run] + [track])));
    Cons(c1, run, [StartSend] + ([Settle(k)] + ([run] + ([run] + [track]))));
    Cons(c, run, [run] + ([StartSend] + ([Settle(k)] + ([run] + ([run] + [track])))));
    steps := [run] + ([run] + ([StartSend] + ([Settle(k)] + ([run] + ([run] + [track])))));
  }

  lemma {:induction false} SentSettled(works: seq<Work>, w: Work)
    requires Unsettled(works) == {}
    ensures Unsettled(works + [w.(settled := true)]) == {}
    ensures (works + [w])[|works| := w.(settled := true)] == works + [w.(settled := true)]
  {
    assert Unsettled(works + [w.(settled := true)]) == Unsettled(works);
  }

  lemma {:induction false} LateTrack(c: Client, n: nat)
    requires n < |c.closeCalls| && c.closeCalls[n] >= 1
    ensures Enabled(c, Track(Some(n))) && !Safe(Apply(c, Track(Some(n))), n)
  {
    assert Apply(c, Track(Some(n))).works[|c.works|].connection == Some(n);
  }

  /** A receiver tracked on a closed connection breaks the promise until it has closed, whatever happens. */
  lemma {:induction false} UnsafeUntilSettled(c: Client, n: nat, steps: seq<Step>)
    requires Reachable(c) && n < |c.closeCalls| && c.closeCalls[n] >= 1
    requires Legal(Apply(c, Track(Some(n))), steps)
    ensures |c.works| < |Exec(Apply(c, Track(Some(n))), steps).works|
    ensures Safe(Exec(Apply(c, Track(Some(n))), steps), n) ==>
      Exec(Apply(c, Track(Some(n))), steps).works[|c.works|].settled
  {
    StaysThere(Apply(c, Track(Some(n))), steps, |c.works|, n);
    hide Exec;
  }

  lemma {:induction false} StaysThere(c: Client, steps: seq<Step>, k: nat, n: nat)
    requires Legal(c, steps) && k < |c.works| && c.works[k].connection == Some(n)
    requires n < |c.closeCalls| && c.closeCalls[n] >= 1
    ensures k < |Exec(c, steps).works| && Exec(c, steps).works[k].connection == Some(n)
    ensures n < |Exec(c, steps).closeCalls| && Exec(c, steps).closeCalls[n] >= 1
    decreases |steps|
  {
    if steps != [] {
      WorkStays(c, steps[0], k);
      hide Apply;
      StaysThere(Apply(c, steps[0]), steps[1..], k, n);
    }
  }
}
