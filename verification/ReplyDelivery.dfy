/** How a client settles the reply messages it receives, alone or beside other clients. */
module ReplyDelivery {
  import opened Outcomes
  import opened Values
  import opened RouterModel
  import opened RouterInvariant
  import opened RouterGuarantees
  import Recent = RecentIds

  // ------------------------------------------------------- request id shapes

  predicate IsHex(c: char) {
    '0' <= c <= '9' || 'a' <= c <= 'f' || 'A' <= c <= 'F'
  }

  predicate AllHex(s: string) {
    forall i :: 0 <= i < |s| ==> IsHex(s[i])
  }

  /** Hexadecimal groups of 8, 4, 4, 4 and 12 characters, with dashes between. */
  predicate IsUuid(s: string) {
    && |s| == 36
    && AllHex(s[..8]) && s[8] == '-'
    && AllHex(s[9..13]) && s[13] == '-'
    && AllHex(s[14..18]) && s[18] == '-'
    && AllHex(s[19..23]) && s[23] == '-'
    && AllHex(s[24..])
  }

  /** `REQUEST_ID_SHAPE` */
  predicate HasRequestIdShape(s: string) {
    IsUuid(s) || IsOldId(s)
  }

  /** What `randomUUID()` returns: a version 4 UUID of section 5.4 of RFC 9562. */
  predicate IsUuidV4(s: string) {
    IsUuid(s) && s[14] == '4' && s[19] in {'8', '9', 'a', 'b', 'A', 'B'}
  }

  /** The 21 hexadecimal characters of the ids of older clients. */
  predicate IsOldId(s: string) {
    |s| == 21 && AllHex(s)
  }

  // --------------------------------------------------------------- settlement

  /** `isOwn` of `processMessage()` */
  predicate IsOwn(r: Router, l: nat, id: Option<string>)
    requires l < |r.all|
  {
    || r.session
    || (id.Some? && id.value in r.all[l].waiters)
    || (id.Some? && id.value in r.finished)
  }

  /** The one settlement call `processMessage()` makes for a message. */
  function Settlement(r: Router, l: nat, id: Option<string>): Verdict
    requires l < |r.all|
  {
    if IsOwn(r, l, id) then Completed
    else if id.None? || !HasRequestIdShape(id.value) then DeadLettered
    else Abandoned
  }

  /**
   * Clients that share a reply queue without sessions: a reply to a generated
   * request id is never dead-lettered, and a client that did not send the
   * request gives it back.
   */
  lemma {:induction false} ForeignReplyIsGivenBack(r: Router, l: nat, id: string)
    requires Reachable(r) && !r.session && l < |r.all| && (IsUuidV4(id) || IsOldId(id))
    ensures !Settlement(r, l, Some(id)).DeadLettered?
    ensures id !in r.fate ==> Settlement(r, l, Some(id)).Abandoned?
  {
    ReachableInv(r);
    if id in r.all[l].waiters { WaiterIsKnown(r, l, id); }
  }

  /** A reply that no client can have asked for is not bounced between the clients. */
  lemma {:induction false} UnaddressedReplyIsDeadLettered(r: Router, l: nat, id: Option<string>)
    requires Reachable(r) && !r.session && l < |r.all|
    requires id.Some? ==> id.value !in r.fate && !HasRequestIdShape(id.value)
    ensures Settlement(r, l, id).DeadLettered?
  {
    ReachableInv(r);
    if id.Some? && id.value in r.all[l].waiters { WaiterIsKnown(r, l, id.value); }
  }

  /** Without sessions a client completes only the replies to its own requests. */
  lemma {:induction false} CompletesOnlyItsOwn(r: Router, l: nat, id: string)
    requires Reachable(r) && !r.session && l < |r.all| && Settlement(r, l, Some(id)).Completed?
    ensures id in r.fate
  {
    ReachableInv(r);
    if id in r.all[l].waiters { WaiterIsKnown(r, l, id); }
  }

  lemma {:induction false} WaiterIsKnown(r: Router, l: nat, id: string)
    requires Inv(r) && l < |r.all| && id in r.all[l].waiters
    ensures id in r.fate && r.fate[id] == Waiting(l)
  {
    hide Registration;
    hide SessionOrder;
    hide ClosingMap;
    hide Lifecycles;
  }

  /** Two clients never both take the same reply: request ids are unique. */
  lemma {:induction false} OnlyOneClientCompletes(r: Router, l: nat, s: Router, m: nat, id: string)
    requires Reachable(r) && !r.session && l < |r.all|
    requires Reachable(s) && !s.session && m < |s.all|
    requires r.fate.Keys !! s.fate.Keys
    ensures !(Settlement(r, l, Some(id)).Completed? && Settlement(s, m, Some(id)).Completed?)
  {
    hide Reachable;
    if Settlement(r, l, Some(id)).Completed? { CompletesOnlyItsOwn(r, l, id); }
    if Settlement(s, m, Some(id)).Completed? { CompletesOnlyItsOwn(s, m, id); }
  }

  // ------------------------------------------- the memory of finished requests

  ghost predicate Remembers(r: Router) {
    r.finished == Recent.Suffix(Recent.DistinctByLastAdd(r.ended), FINISHED_IDS_LIMIT)
  }

  lemma {:induction false} EndRemembers(r: Router, s: Router, id: string)
    requires Remembers(r)
    requires s.finished == Recent.Added(r.finished, id, FINISHED_IDS_LIMIT) && s.ended == r.ended + [id]
    ensures Remembers(s)
  {
    Recent.AddKeepsMostRecent(r.ended, id, FINISHED_IDS_LIMIT);
  }

  lemma {:induction false} StopWaitingRemembers(r: Router, l: nat, id: string)
    requires Remembers(r)
    ensures Remembers(StopWaitingIn(r, l, id))
  {
    if l < |r.all| && id in r.all[l].waiters {
      EndRemembers(r, Leave(r, l, id), id);
    }
    hide Recent.Suffix;
    hide Recent.DistinctByLastAdd;
    hide Recent.Added;
    hide Recent.Without;
  }

  lemma {:induction false} StopAllRemembers(r: Router, stops: seq<Stop>)
    requires Remembers(r)
    ensures Remembers(StopAll(r, stops))
    decreases |stops|
  {
    hide Remembers;
    if stops != [] {
      StopWaitingRemembers(r, stops[0].listener, stops[0].id);
      StopAllRemembers(StopWaitingIn(r, stops[0].listener, stops[0].id), stops[1..]);
    }
  }

  lemma {:induction false} FailEachRemembers(r: Router, ids: seq<string>, script: seq<seq<Stop>>)
    requires Remembers(r)
    ensures Remembers(FailEach(r, ids, script))
    decreases |ids|
  {
    if ids != [] {
      var stops := if script == [] then [] else script[0];
      EndRemembers(r, Fail(r, ids[0]), ids[0]);
      hide Remembers;
      StopAllRemembers(Fail(r, ids[0]), stops);
      FailEachRemembers(StopAll(Fail(r, ids[0]), stops), ids[1..], if script == [] then [] else script[1..]);
    }
  }

  lemma {:induction false} FailAllRemembers(r: Router, l: nat, script: seq<seq<Stop>>)
    requires Remembers(r) && l < |r.all|
    ensures Remembers(FailAll(r, l, script))
  {
    hide Recent.Suffix;
    hide Recent.DistinctByLastAdd;
    FailEachSize(Clear(r, l), r.all[l].waiters, script);
    FailEachRemembers(Clear(r, l), r.all[l].waiters, script);
  }

  lemma {:induction false} FailListenersRemembers(r: Router, ls: seq<nat>, scripts: seq<seq<seq<Stop>>>)
    requires Remembers(r) && forall i :: 0 <= i < |ls| ==> ls[i] < |r.all|
    ensures Remembers(FailListeners(r, ls, scripts))
    decreases |ls|
  {
    hide Remembers;
    if ls != [] {
      FailAllRemembers(r, ls[0], if scripts == [] then [] else scripts[0]);
      FailListenersRemembers(FailAll(r, ls[0], if scripts == [] then [] else scripts[0]), ls[1..],
                             if scripts == [] then [] else scripts[1..]);
    }
  }

  lemma {:induction false} StepRemembers(r: Router, step: Step)
    requires Remembers(r) && Enabled(r, step)
    ensures Remembers(Apply(r, step))
  {
    hide FailAll;
    hide FailListeners;
    hide StopWaitingIn;
    hide Recent.Suffix;
    hide Recent.DistinctByLastAdd;
    hide WaitIn;
    match step {
      case StopWaiting(l, id) => StopWaitingRemembers(r, l, id);
      case OpenFails(l, script) => if !r.all[l].closed { FailAllRemembers(r, l, script); }
      case FatalError(l, script) => FailAllRemembers(r, l, script);
      case CloseRouter(scripts) => FailListenersRemembers(r, Registered(r, 0), scripts);
      case _ => OthersEndNothing(r, step);
    }
  }

  lemma {:induction false} OthersEndNothing(r: Router, step: Step)
    requires Enabled(r, step)
    requires step.Wait? || step.OpenResumes? || step.SessionSettles? || step.CloseResumes? || step.ReceiverCloses?
          || step.SubscriptionCloses?
    ensures Apply(r, step).finished == r.finished && Apply(r, step).ended == r.ended
  {
    if step.CloseResumes? || step.ReceiverCloses? || step.SubscriptionCloses? {
      ClosingsEndNothing(r, step);
    } else {
      OpeningsEndNothing(r, step);
    }
    hide Apply;
  }

  lemma {:induction false} OpeningsEndNothing(r: Router, step: Step)
    requires Enabled(r, step) && (step.Wait? || step.OpenResumes? || step.SessionSettles?)
    ensures Apply(r, step).finished == r.finished && Apply(r, step).ended == r.ended
  {
  }

  lemma {:induction false} ClosingsEndNothing(r: Router, step: Step)
    requires Enabled(r, step) && (step.CloseResumes? || step.ReceiverCloses? || step.SubscriptionCloses?)
    ensures Apply(r, step).finished == r.finished && Apply(r, step).ended == r.ended
  {
    hide Settle;
    var l := step.listener;
    match step {
      case CloseResumes(_) => SettlingEndsNothing(r, l, r.all[l].(aborted := true));
      case ReceiverCloses(_, _) => SettlingEndsNothing(r, l, r.all[l].(aborted := true));
      case SubscriptionCloses(_) => SettleEndsNothing(r, l);
    }
  }

  lemma {:induction false} SettleEndsNothing(r: Router, l: nat)
    requires l < |r.all|
    ensures Settle(r, l).finished == r.finished && Settle(r, l).ended == r.ended
  {
  }

  lemma {:induction false} SettlingEndsNothing(r: Router, l: nat, y: Listener)
    requires l < |r.all|
    ensures Put(r, l, y).finished == r.finished && Put(r, l, y).ended == r.ended && |Put(r, l, y).all| == |r.all|
    ensures Settle(Put(r, l, y), l).finished == r.finished && Settle(Put(r, l, y), l).ended == r.ended
  {
    SettleEndsNothing(Put(r, l, y), l);
    hide Settle;
  }

  lemma {:induction false} RunRemembers(r: Router, steps: seq<Step>)
    requires Remembers(r) && Legal(r, steps)
    ensures Remembers(Exec(r, steps))
    decreases |steps|
  {
    hide Remembers;
    if steps != [] {
      StepRemembers(r, steps[0]);
      RunRemembers(Apply(r, steps[0]), steps[1..]);
    }
  }

  /**
   * A reply to a request of this client is completed while the request waits on
   * that listener, and after it ended as long as no more than a thousand
   * requests, itself included, have ended since.
   */
  lemma {:induction false} OwnReplyIsCompleted(r: Router, l: nat, id: string)
    requires Reachable(r) && l < |r.all|
    requires id in r.all[l].waiters
          || (id in r.ended && |r.ended| - Recent.LastAdd(r.ended, id) <= FINISHED_IDS_LIMIT)
    ensures Settlement(r, l, Some(id)).Completed?
  {
    if id !in r.all[l].waiters {
      var steps :| Legal(Empty(r.session), steps) && Exec(Empty(r.session), steps) == r;
      assert Recent.DistinctByLastAdd([]) == [];
      RunRemembers(Empty(r.session), steps);
      Recent.RemembersRecent(r.ended, id, FINISHED_IDS_LIMIT);
    }
  }
}
