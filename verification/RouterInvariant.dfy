/** What every step of the router keeps. */
module RouterInvariant {
  import opened Values
  import opened RouterModel
  import Recent = RecentIds

  /**
   * Registered listeners are the open ones, the newest of their queue, and wait
   * for someone. The listeners in `exempt`, in the middle of an operation, may
   * have no waiter left.
   */
  ghost predicate Registration(r: Router, exempt: set<int>) {
    && (forall q :: q in r.listeners ==>
          r.listeners[q] < |r.all| && r.all[r.listeners[q]].replyTo == q && !r.all[r.listeners[q]].closed)
    && (forall i :: 0 <= i < |r.all| && !r.all[i].closed ==>
          r.all[i].replyTo in r.listeners && r.listeners[r.all[i].replyTo] == i)
    && (forall i :: 0 <= i < |r.all| && r.all[i].closed ==> r.all[i].waiters == [])
    && (forall i :: 0 <= i < |r.all| && r.all[i].waiters == [] && i !in exempt ==> r.all[i].closed)
    && (forall i, j :: 0 <= i < j < |r.all| && r.all[i].replyTo == r.all[j].replyTo ==> r.all[i].closed)
  }

  /** The two coroutines of one listener and its receiver. */
  predicate Lifecycle(x: Listener) {
    && (x.closed <==> !x.closing.NotClosing?)
    && (x.aborted ==> x.closed)
    && (x.closed && !x.receiver ==> x.aborted)
    && (x.receiver ==> x.opening.Failing? || x.opening.Opened?)
    && (x.subscribed ==> x.receiver && x.opening.Opened?)
    && (x.opening.Opened? && !x.closed ==> x.subscribed)
    && (ReceiverReleased(x) || x.closing.ClosingReceiver? ==> x.opening.Opened?)
    && (x.closing.ClosingReceiver? ==> x.receiver)
    && (x.closing.ClosingSubscription? ==> x.subscribed)
    && (ReceiverReleased(x) ==> x.aborted)
    && (x.aborted && x.subscribed ==> ReceiverReleased(x))
    && x.closeCalls == (if x.receiver && (ReceiverReleased(x) || x.closing.ClosingReceiver?) then 1 else 0)
  }

  /** `receiver.close()`, if there was one to call, has settled. */
  predicate ReceiverReleased(x: Listener) {
    x.closing.ClosingSubscription? || x.closing.Settled?
  }

  ghost predicate Lifecycles(r: Router) {
    forall i :: 0 <= i < |r.all| ==> Lifecycle(r.all[i])
  }

  /** `closing` names, per queue, the newest listener that is closing. */
  ghost predicate ClosingMap(r: Router) {
    forall q :: q in r.closing ==>
      && r.closing[q] < |r.all| && r.all[r.closing[q]].replyTo == q
      && r.all[r.closing[q]].closed && !r.all[r.closing[q]].closing.Settled?
      && (forall i :: r.closing[q] < i < |r.all| && r.all[i].replyTo == q ==> !r.all[i].closed)
  }

  /** The listener `j` waits, through its `previous`, for every older one still closing. */
  ghost predicate Ordered(r: Router, i: nat, j: nat)
    requires i < |r.all| && j < |r.all|
  {
    if r.all[j].opening.AwaitingPrevious? then
      || r.all[i].closing.Settled?
      || (r.all[j].opening.previous.Some?
          && i <= r.all[j].opening.previous.value < j
          && r.all[r.all[j].opening.previous.value].replyTo == r.all[j].replyTo)
    else
      r.all[i].closing.Settled?
  }

  /** Sessions: an older receiver of the queue is released before the next is asked for. */
  ghost predicate SessionOrder(r: Router) {
    r.session ==>
      && (forall i, j :: 0 <= i < j < |r.all| && r.all[i].replyTo == r.all[j].replyTo ==> Ordered(r, i, j))
      && (forall i :: 0 <= i < |r.all| && r.all[i].closed && !r.all[i].closing.Settled? ==>
            r.all[i].replyTo in r.closing && i <= r.closing[r.all[i].replyTo])
  }

  /** The requests in the listeners' maps are the ones waiting, each on its own listener. */
  ghost predicate WaitersMatch(all: seq<Listener>, fate: map<string, Fate>, pending: seq<string>) {
    && (forall i, id :: 0 <= i < |all| ==>
          (id in all[i].waiters <==> id in fate && fate[id] == Waiting(i) && id !in pending))
    && (forall i :: 0 <= i < |all| ==> Recent.Distinct(all[i].waiters))
  }

  /** The requests `failAll()` still has to fail are those of the listener it cleared. */
  ghost predicate PendingMatch(r: Router, failing: int, pending: seq<string>) {
    && (forall id :: id in pending ==> id in r.fate && r.fate[id].Waiting? && r.fate[id].listener == failing)
    && Recent.Distinct(pending)
  }

  ghost predicate FatesMatch(r: Router) {
    && (forall id :: id in r.fate && r.fate[id].Waiting? ==> r.fate[id].listener < |r.all|)
    && (forall id :: id in r.failures <==> id in r.fate && r.fate[id].Failed?)
    && Recent.Distinct(r.failures)
    && (forall id :: id in r.finished ==> id in r.fate && !r.fate[id].Waiting?)
  }

  /** Every request that waited is accounted for. */
  ghost predicate Ledger(r: Router, failing: int, pending: seq<string>) {
    WaitersMatch(r.all, r.fate, pending) && PendingMatch(r, failing, pending) && FatesMatch(r)
  }

  ghost predicate During(r: Router, exempt: set<int>, failing: int, pending: seq<string>) {
    && Registration(r, exempt)
    && Lifecycles(r)
    && ClosingMap(r)
    && SessionOrder(r)
    && Ledger(r, failing, pending)
  }

  ghost predicate Inv(r: Router) {
    During(r, {}, -1, [])
  }

  // ------------------------------------------------------- moving coroutines

  /** A listener whose coroutines move on, with the rest of the router as it was. */
  predicate Moves(x: Listener, y: Listener) {
    y.replyTo == x.replyTo && y.waiters == x.waiters && y.closed == x.closed
  }

  ghost predicate OlderSettled(r: Router, l: nat)
    requires l < |r.all|
  {
    forall i :: 0 <= i < l && r.all[i].replyTo == r.all[l].replyTo ==> r.all[i].closing.Settled?
  }

  lemma {:induction false} PutMoves(
      r: Router, l: nat, y: Listener, exempt: set<int>, failing: int, pending: seq<string>)
    requires During(r, exempt, failing, pending) && l < |r.all|
    requires Moves(r.all[l], y) && Lifecycle(y) && (y.closing.Settled? <==> r.all[l].closing.Settled?)
    requires y.opening == r.all[l].opening || (r.session ==> OlderSettled(r, l))
    ensures During(Put(r, l, y), exempt, failing, pending)
  {
    PutMovesRegistration(r, l, y, exempt);
    PutMovesLedger(r, l, y, failing, pending);
    PutMovesClosing(r, l, y);
    PutMovesOrder(r, l, y);
    hide Registration;
    hide Ledger;
    hide SessionOrder;
    hide ClosingMap;
  }

  lemma {:induction false} PutMovesRegistration(r: Router, l: nat, y: Listener, exempt: set<int>)
    requires Registration(r, exempt) && l < |r.all| && Moves(r.all[l], y)
    ensures Registration(Put(r, l, y), exempt)
  {
  }

  lemma {:induction false} PutMovesLedger(r: Router, l: nat, y: Listener, failing: int, pending: seq<string>)
    requires Ledger(r, failing, pending) && l < |r.all| && y.waiters == r.all[l].waiters
    ensures Ledger(Put(r, l, y), failing, pending)
  {
    var q := Put(r, l, y);
    forall i | 0 <= i < |q.all| ensures q.all[i].waiters == r.all[i].waiters {}
  }

  lemma {:induction false} PutMovesClosing(r: Router, l: nat, y: Listener)
    requires ClosingMap(r) && l < |r.all| && y.replyTo == r.all[l].replyTo && y.closed == r.all[l].closed
    requires y.closing.Settled? <==> r.all[l].closing.Settled?
    ensures ClosingMap(Put(r, l, y))
  {
  }

  lemma {:induction false} PutMovesOrder(r: Router, l: nat, y: Listener)
    requires SessionOrder(r) && l < |r.all| && y.replyTo == r.all[l].replyTo && y.closed == r.all[l].closed
    requires y.closing.Settled? <==> r.all[l].closing.Settled?
    requires y.opening == r.all[l].opening || (r.session ==> OlderSettled(r, l))
    ensures SessionOrder(Put(r, l, y))
  {
  }

  /** Once its `previous` settled, so did every older listener of the queue. */
  lemma {:induction false} PreviousSettledAll(r: Router, l: nat)
    requires Lifecycles(r) && SessionOrder(r) && r.session && l < |r.all|
    requires r.all[l].opening.AwaitingPrevious? ==> PreviousSettled(r, r.all[l].opening.previous)
    ensures OlderSettled(r, l)
  {
    forall i | 0 <= i < l && r.all[i].replyTo == r.all[l].replyTo ensures r.all[i].closing.Settled? {
      assert Ordered(r, i, l);
      var opening := r.all[l].opening;
      if opening.AwaitingPrevious? && opening.previous.Some? {
        var p := opening.previous.value;
        assert Lifecycle(r.all[p]);
        if i < p < l && r.all[p].replyTo == r.all[l].replyTo {
          assert Ordered(r, i, p);
        }
      }
    }
  }

  /** The closing coroutine ends, after an abort of the signal or not. */
  lemma {:induction false} SettleKeeps(r: Router, l: nat, x: Listener)
    requires Inv(r) && l < |r.all| && r.all[l].closed && x == r.all[l].(aborted := x.aborted)
    requires Lifecycle(x.(closing := Settled))
    ensures Inv(Settle(Put(r, l, x), l))
  {
    if r.session { PreviousSettledAll(r, l); }
    var y := x.(closing := Settled);
    var s := Settle(Put(r, l, x), l);
    assert s.all == Put(r, l, y).all;
    PutMovesRegistration(r, l, y, {});
    PutMovesLedger(r, l, y, -1, []);
    PutLifecycles(r, l, y);
    PutMovesClosing(r, l, x);
    PutMovesOrder(r, l, x);
    SettleClosing(Put(r, l, x), l);
    SettleOrder(Put(r, l, x), l);
    SameLedger(Put(r, l, y), s.closing);
    hide Registration;
    hide Ledger;
    hide SessionOrder;
    hide ClosingMap;
    hide Lifecycles;
    assert s == Put(r, l, y).(closing := s.closing);
  }

  /** The map of closings is no concern of the registrations and the ledger. */
  lemma {:induction false} SameLedger(r: Router, closing: map<string, nat>)
    requires Registration(r, {}) && Ledger(r, -1, [])
    ensures Registration(r.(closing := closing), {}) && Ledger(r.(closing := closing), -1, [])
  {
  }

  lemma {:induction false} SettleClosing(r: Router, l: nat)
    requires ClosingMap(r) && l < |r.all|
    ensures ClosingMap(Settle(r, l))
  {
  }

  lemma {:induction false} SettleOrder(r: Router, l: nat)
    requires SessionOrder(r) && ClosingMap(r) && l < |r.all| && r.all[l].closed
    requires r.session ==> OlderSettled(r, l)
    ensures SessionOrder(Settle(r, l))
  {
    var s := Settle(r, l);
    if r.session {
      forall i | 0 <= i < |s.all| && s.all[i].closed && !s.all[i].closing.Settled?
        ensures s.all[i].replyTo in s.closing && i <= s.closing[s.all[i].replyTo]
      {
        assert r.all[i].replyTo in r.closing && i <= r.closing[r.all[i].replyTo];
      }
      forall i, j | 0 <= i < j < |s.all| && s.all[i].replyTo == s.all[j].replyTo ensures Ordered(s, i, j) {
        assert Ordered(r, i, j);
      }
    }
  }

  // ---------------------------------------------------- closing a listener

  lemma {:induction false} CloseListenerKeeps(r: Router, l: nat, exempt: set<int>, failing: int, pending: seq<string>)
    requires During(r, exempt + {l}, failing, pending) && l < |r.all| && r.all[l].waiters == []
    ensures During(CloseListener(r, l), exempt, failing, pending)
    ensures CloseListener(r, l).all[l].closed
  {
    CloseListenerRegistration(r, l, exempt);
    CloseListenerOrder(r, l, exempt);
    CloseListenerClosing(r, l, exempt);
    CloseListenerLedger(r, l, failing, pending);
    CloseListenerLifecycles(r, l);
    hide Registration;
    hide Lifecycles;
    hide Ledger;
    hide SessionOrder;
    hide ClosingMap;
  }

  lemma {:induction false} CloseListenerLifecycles(r: Router, l: nat)
    requires Lifecycles(r) && l < |r.all|
    ensures Lifecycles(CloseListener(r, l)) && CloseListener(r, l).all[l].closed
  {
  }

  lemma {:induction false} CloseListenerRegistration(r: Router, l: nat, exempt: set<int>)
    requires Registration(r, exempt + {l}) && l < |r.all| && r.all[l].waiters == []
    ensures Registration(CloseListener(r, l), exempt)
  {
    var s := CloseListener(r, l);
    if !r.all[l].closed {
      forall i | 0 <= i < |s.all|
        ensures s.all[i].replyTo == r.all[i].replyTo && s.all[i].waiters == r.all[i].waiters
        ensures s.all[i].closed <==> r.all[i].closed || i == l
      {
      }
    }
  }

  lemma {:induction false} CloseListenerLedger(r: Router, l: nat, failing: int, pending: seq<string>)
    requires Ledger(r, failing, pending) && l < |r.all|
    ensures Ledger(CloseListener(r, l), failing, pending)
  {
    SameWaiters(r.all, CloseListener(r, l).all, r.fate, pending);
    CloseListenerFrame(r, l);
    hide WaitersMatch;
    hide CloseListener;
  }

  lemma {:induction false} CloseListenerFrame(r: Router, l: nat)
    requires l < |r.all|
    ensures
      var q := CloseListener(r, l);
      q.fate == r.fate && q.failures == r.failures && q.finished == r.finished && q.session == r.session
  {
  }

  lemma {:induction false} SameWaiters(
      all: seq<Listener>, next: seq<Listener>, fate: map<string, Fate>, pending: seq<string>)
    requires WaitersMatch(all, fate, pending) && |next| == |all|
    requires forall i :: 0 <= i < |all| ==> next[i].waiters == all[i].waiters
    ensures WaitersMatch(next, fate, pending)
  {
  }

  lemma {:induction false} CloseListenerClosing(r: Router, l: nat, exempt: set<int>)
    requires Registration(r, exempt + {l}) && ClosingMap(r) && l < |r.all|
    ensures ClosingMap(CloseListener(r, l))
  {
    if !r.all[l].closed {
      forall i | l < i < |r.all| ensures r.all[i].replyTo != r.all[l].replyTo {}
    }
  }

  lemma {:induction false} CloseListenerOrdered(r: Router, l: nat, i: nat, j: nat)
    requires l < |r.all| && i < j < |r.all| && r.all[i].closed && Ordered(r, i, j)
    requires !r.all[l].closed
    ensures Ordered(CloseListener(r, l), i, j)
  {
  }

  lemma {:induction false} CloseListenerOrder(r: Router, l: nat, exempt: set<int>)
    requires Registration(r, exempt + {l}) && SessionOrder(r) && l < |r.all|
    ensures SessionOrder(CloseListener(r, l))
  {
    var s := CloseListener(r, l);
    if r.session && !r.all[l].closed {
      forall i, j | 0 <= i < j < |s.all| && s.all[i].replyTo == s.all[j].replyTo ensures Ordered(s, i, j) {
        assert r.all[i].replyTo == r.all[j].replyTo && r.all[i].closed;
        CloseListenerOrdered(r, l, i, j);
      }
    }
    hide Ordered;
  }

  // --------------------------------------------------- waiting and stopping

  lemma {:induction false} OpenKeeps(r: Router, replyTo: string)
    requires Inv(r) && replyTo !in r.listeners
    ensures During(Open(r, replyTo), {|r.all|}, -1, [])
  {
    var s := Open(r, replyTo);
    hide Registration;
    hide Ledger;
    hide SessionOrder;
    hide ClosingMap;
    OpenRegistration(r, replyTo);
    OpenOrder(r, replyTo);
    OpenLedger(r, replyTo);
    OpenClosing(r, replyTo);
    forall i | 0 <= i < |s.all| ensures Lifecycle(s.all[i]) {
      if i < |r.all| { assert s.all[i] == r.all[i]; }
    }
  }

  lemma {:induction false} OpenRegistration(r: Router, replyTo: string)
    requires Registration(r, {}) && replyTo !in r.listeners
    ensures Registration(Open(r, replyTo), {|r.all|})
  {
  }

  lemma {:induction false} OpenClosing(r: Router, replyTo: string)
    requires ClosingMap(r)
    ensures ClosingMap(Open(r, replyTo))
  {
  }

  lemma {:induction false} OpenOrder(r: Router, replyTo: string)
    requires Registration(r, {}) && replyTo !in r.listeners && ClosingMap(r) && SessionOrder(r)
    ensures SessionOrder(Open(r, replyTo))
  {
    var s := Open(r, replyTo);
    if r.session {
      forall i, j | 0 <= i < j < |s.all| && s.all[i].replyTo == s.all[j].replyTo ensures Ordered(s, i, j) {
        if j < |r.all| {
          assert Ordered(r, i, j);
        } else {
          assert r.all[i].closed;
        }
      }
    }
  }

  lemma {:induction false} OpenLedger(r: Router, replyTo: string)
    requires Ledger(r, -1, [])
    ensures Ledger(Open(r, replyTo), -1, [])
  {
    var s := Open(r, replyTo);
    forall i | 0 <= i < |s.all|
      ensures s.all[i].waiters == if i < |r.all| then r.all[i].waiters else []
    {
    }
  }

  lemma {:induction false} JoinKeeps(r: Router, l: nat, id: string)
    requires During(r, {l}, -1, []) && l < |r.all| && !r.all[l].closed && id !in r.fate
    ensures Inv(Join(r, l, id))
  {
    var y := r.all[l].(waiters := r.all[l].waiters + [id]);
    JoinRegistration(r, l, id);
    JoinLedger(r, l, id);
    PutMovesOrder(r, l, y);
    PutMovesClosing(r, l, y);
    PutLifecycles(r, l, y);
    FrameOrder(Put(r, l, y), Join(r, l, id));
    hide Registration;
    hide Ledger;
    hide SessionOrder;
    hide ClosingMap;
    hide Lifecycles;
  }

  lemma {:induction false} PutLifecycles(r: Router, l: nat, y: Listener)
    requires Lifecycles(r) && l < |r.all| && Lifecycle(y)
    ensures Lifecycles(Put(r, l, y))
  {
  }

  /** The coroutines and their order look at the listeners and the closings only. */
  lemma {:induction false} FrameOrder(r: Router, s: Router)
    requires Lifecycles(r) && SessionOrder(r) && ClosingMap(r)
    requires s.session == r.session && s.all == r.all && s.closing == r.closing
    ensures Lifecycles(s) && SessionOrder(s) && ClosingMap(s)
  {
    assert r.session ==> forall i, j ::
      0 <= i < j < |s.all| && s.all[i].replyTo == s.all[j].replyTo ==> Ordered(r, i, j) == Ordered(s, i, j);
  }

  lemma {:induction false} JoinRegistration(r: Router, l: nat, id: string)
    requires Registration(r, {l}) && l < |r.all| && !r.all[l].closed
    ensures Registration(Join(r, l, id), {})
  {
  }

  lemma {:induction false} JoinLedger(r: Router, l: nat, id: string)
    requires Ledger(r, -1, []) && l < |r.all| && id !in r.fate
    ensures Ledger(Join(r, l, id), -1, [])
  {
    var s := Join(r, l, id);
    forall i | 0 <= i < |s.all|
      ensures s.all[i].waiters == if i == l then r.all[i].waiters + [id] else r.all[i].waiters
    {
    }
    JoinWaiters(r.all, s.all, r.fate, l, id);
    hide WaitersMatch;
  }

  lemma {:induction false} JoinWaiters(
      all: seq<Listener>, next: seq<Listener>, fate: map<string, Fate>, l: nat, id: string)
    requires WaitersMatch(all, fate, []) && l < |all| && |next| == |all| && id !in fate
    requires forall i :: 0 <= i < |all| ==>
      next[i].waiters == if i == l then all[i].waiters + [id] else all[i].waiters
    ensures WaitersMatch(next, fate[id := Waiting(l)], [])
  {
    assert id !in all[l].waiters;
    forall i | 0 <= i < |all| ensures Recent.Distinct(next[i].waiters) {
      JoinDistinct(all[i].waiters, id);
    }
    hide Recent.Distinct;
  }

  lemma {:induction false} JoinDistinct(waiters: seq<string>, id: string)
    requires Recent.Distinct(waiters)
    ensures id !in waiters ==> Recent.Distinct(waiters + [id])
  {
  }

  lemma {:induction false} WaitKeeps(r: Router, replyTo: string, id: string)
    requires Inv(r) && id !in r.fate
    ensures Inv(WaitIn(r, replyTo, id))
  {
    if replyTo in r.listeners {
      assert Registration(r, {r.listeners[replyTo]});
      JoinKeeps(r, r.listeners[replyTo], id);
    } else {
      OpenKeeps(r, replyTo);
      hide During;
      JoinKeeps(Open(r, replyTo), |r.all|, id);
    }
  }

  /** A request leaves; its listener may be left with no waiter. */
  lemma {:induction false} LeaveKeeps(
      r: Router, l: nat, id: string, exempt: set<int>, failing: int, pending: seq<string>)
    requires During(r, exempt, failing, pending) && l < |r.all| && id in r.all[l].waiters
    ensures During(Leave(r, l, id), exempt + {l}, failing, pending)
    ensures Leave(r, l, id).all[l].waiters != [] ==> During(Leave(r, l, id), exempt, failing, pending)
  {
    var y := r.all[l].(waiters := Recent.Without(r.all[l].waiters, id));
    LeaveRegistration(r, l, id, exempt);
    LeaveLedger(r, l, id, failing, pending);
    PutMovesOrder(r, l, y);
    PutMovesClosing(r, l, y);
    PutLifecycles(r, l, y);
    FrameOrder(Put(r, l, y), Leave(r, l, id));
    hide Registration;
    hide Ledger;
    hide SessionOrder;
    hide ClosingMap;
    hide Lifecycles;
  }

  lemma {:induction false} LeaveRegistration(r: Router, l: nat, id: string, exempt: set<int>)
    requires Registration(r, exempt) && l < |r.all| && id in r.all[l].waiters
    ensures Registration(Leave(r, l, id), exempt + {l})
    ensures Leave(r, l, id).all[l].waiters != [] ==> Registration(Leave(r, l, id), exempt)
  {
    hide Recent.Without;
    hide Recent.Added;
  }

  lemma {:induction false} LeaveLedger(r: Router, l: nat, id: string, failing: int, pending: seq<string>)
    requires Ledger(r, failing, pending) && l < |r.all| && id in r.all[l].waiters
    ensures Ledger(Leave(r, l, id), failing, pending)
  {
    Recent.AddedMembers(r.finished, id, FINISHED_IDS_LIMIT);
    Recent.WithoutDistinct(r.all[l].waiters, id);
    hide Recent.Added;
    assert FatesMatch(Leave(r, l, id));
    assert id !in pending;
    assert PendingMatch(Leave(r, l, id), failing, pending);
    LeaveWaiters(r.all, r.fate, pending, l, id);
    hide WaitersMatch;
  }

  lemma {:induction false} LeaveWaiters(
      all: seq<Listener>, fate: map<string, Fate>, pending: seq<string>, l: nat, id: string)
    requires WaitersMatch(all, fate, pending) && l < |all| && id in all[l].waiters
    ensures WaitersMatch(all[l := all[l].(waiters := Recent.Without(all[l].waiters, id))],
                         fate[id := Stopped], pending)
  {
    Recent.WithoutDistinct(all[l].waiters, id);
    var kept := Recent.Without(all[l].waiters, id);
    var next, fate' := all[l := all[l].(waiters := kept)], fate[id := Stopped];
    hide Recent.Without;
    hide Recent.Distinct;
    forall i, x | 0 <= i < |next|
      ensures x in next[i].waiters <==> x in fate' && fate'[x] == Waiting(i) && x !in pending
    {
      assert x in all[i].waiters <==> x in fate && fate[x] == Waiting(i) && x !in pending;
    }
    forall i | 0 <= i < |next| ensures Recent.Distinct(next[i].waiters) {
      assert Recent.Distinct(all[i].waiters);
    }
  }

  lemma {:induction false} StopWaitingKeeps(
      r: Router, l: nat, id: string, exempt: set<int>, failing: int, pending: seq<string>)
    requires During(r, exempt, failing, pending)
    ensures During(StopWaitingIn(r, l, id), exempt, failing, pending)
  {
    if l < |r.all| && id in r.all[l].waiters {
      LeaveKeeps(r, l, id, exempt, failing, pending);
      var next := Leave(r, l, id);
      hide Leave;
      if next.all[l].waiters == [] {
        CloseListenerKeeps(next, l, exempt, failing, pending);
      }
    }
  }

  // --------------------------------------------------------- failing them all

  /** Stopping requests of other listeners leaves an emptied listener empty. */
  lemma {:induction false} StopAllKeeps(r: Router, stops: seq<Stop>, l: nat, pending: seq<string>)
    requires During(r, {l}, l, pending) && l < |r.all| && r.all[l].waiters == []
    ensures |StopAll(r, stops).all| == |r.all|
    ensures During(StopAll(r, stops), {l}, l, pending) && StopAll(r, stops).all[l].waiters == []
    decreases |stops|
  {
    if stops != [] {
      StopWaitingKeeps(r, stops[0].listener, stops[0].id, {l}, l, pending);
      StopWaitingOther(r, stops[0].listener, stops[0].id, l);
      hide During;
      StopAllKeeps(StopWaitingIn(r, stops[0].listener, stops[0].id), stops[1..], l, pending);
    }
  }

  lemma {:induction false} StopWaitingOther(r: Router, other: nat, id: string, l: nat)
    requires l < |r.all| && r.all[l].waiters == []
    ensures StopWaitingIn(r, other, id).all[l].waiters == []
  {
  }

  lemma {:induction false} FailKeeps(r: Router, l: nat, pending: seq<string>)
    requires During(r, {l}, l, pending) && pending != []
    ensures During(Fail(r, pending[0]), {l}, l, pending[1..])
  {
    FrameOrder(r, Fail(r, pending[0]));
    FailLedger(r, l, pending);
    hide Ledger;
    hide SessionOrder;
    hide ClosingMap;
    hide Lifecycles;
    hide Fail;
    assert Fail(r, pending[0]).all == r.all && Fail(r, pending[0]).listeners == r.listeners by {
      FailFrame(r, pending[0]);
    }
  }

  lemma {:induction false} FailFrame(r: Router, id: string)
    ensures Fail(r, id).all == r.all && Fail(r, id).listeners == r.listeners
  {
  }

  lemma {:induction false} FailLedger(r: Router, l: nat, pending: seq<string>)
    requires Ledger(r, l, pending) && pending != []
    ensures Ledger(Fail(r, pending[0]), l, pending[1..])
  {
    FailWaiters(r.all, r.fate, pending);
    FailPending(r, l, pending);
    FailFates(r, pending[0]);
    hide WaitersMatch;
    hide PendingMatch;
    hide FatesMatch;
  }

  lemma {:induction false} FailPending(r: Router, l: nat, pending: seq<string>)
    requires PendingMatch(r, l, pending) && pending != []
    ensures PendingMatch(Fail(r, pending[0]), l, pending[1..])
  {
    assert forall x :: x in pending[1..] ==> x in pending;
    assert pending[0] !in pending[1..];
  }

  lemma {:induction false} FailFates(r: Router, id: string)
    requires FatesMatch(r) && id in r.fate && r.fate[id].Waiting?
    ensures FatesMatch(Fail(r, id))
  {
    Recent.AddedMembers(r.finished, id, FINISHED_IDS_LIMIT);
    hide Recent.Added;
  }

  lemma {:induction false} FailWaiters(all: seq<Listener>, fate: map<string, Fate>, pending: seq<string>)
    requires WaitersMatch(all, fate, pending) && pending != [] && Recent.Distinct(pending)
    ensures WaitersMatch(all, fate[pending[0] := Failed], pending[1..])
  {
    assert forall x :: x in pending <==> x == pending[0] || x in pending[1..];
  }

  lemma {:induction false} FailEachKeeps(r: Router, l: nat, pending: seq<string>, script: seq<seq<Stop>>)
    requires During(r, {l}, l, pending) && l < |r.all| && r.all[l].waiters == []
    ensures
      var s := FailEach(r, pending, script);
      During(s, {l}, l, []) && l < |s.all| && s.all[l].waiters == []
    decreases |pending|
  {
    if pending != [] {
      var stops := if script == [] then [] else script[0];
      var failed := Fail(r, pending[0]);
      FailKeeps(r, l, pending);
      hide During;
      StopAllKeeps(failed, stops, l, pending[1..]);
      FailEachKeeps(StopAll(failed, stops), l, pending[1..], if script == [] then [] else script[1..]);
    }
  }

  lemma {:induction false} ClearKeeps(r: Router, l: nat)
    requires Inv(r) && l < |r.all|
    ensures During(Clear(r, l), {l}, l, r.all[l].waiters)
  {
    var y := r.all[l].(waiters := []);
    PutMovesOrder(r, l, y);
    PutMovesClosing(r, l, y);
    PutLifecycles(r, l, y);
    ClearRegistration(r, l);
    ClearLedger(r, l);
    hide Registration;
    hide Ledger;
    hide SessionOrder;
    hide ClosingMap;
    hide Lifecycles;
  }

  lemma {:induction false} ClearRegistration(r: Router, l: nat)
    requires Registration(r, {}) && l < |r.all|
    ensures Registration(Clear(r, l), {l})
  {
  }

  lemma {:induction false} ClearLedger(r: Router, l: nat)
    requires Ledger(r, -1, []) && l < |r.all|
    ensures Ledger(Clear(r, l), l, r.all[l].waiters)
  {
    ClearWaiters(r.all, r.fate, l);
    assert FatesMatch(Clear(r, l));
    assert PendingMatch(Clear(r, l), l, r.all[l].waiters);
    hide WaitersMatch;
  }

  lemma {:induction false} ClearWaiters(all: seq<Listener>, fate: map<string, Fate>, l: nat)
    requires WaitersMatch(all, fate, []) && l < |all|
    ensures WaitersMatch(all[l := all[l].(waiters := [])], fate, all[l].waiters)
  {
    hide Recent.Distinct;
    assert Recent.Distinct([]) by { EmptyDistinct(); }
  }

  lemma {:induction false} EmptyDistinct()
    ensures Recent.Distinct([])
  {
  }

  lemma {:induction false} FailAllKeeps(r: Router, l: nat, script: seq<seq<Stop>>)
    requires Inv(r) && l < |r.all|
    ensures Inv(FailAll(r, l, script)) && FailAll(r, l, script).all[l].closed
  {
    ClearKeeps(r, l);
    FailEachKeeps(Clear(r, l), l, r.all[l].waiters, script);
    var s := FailEach(Clear(r, l), r.all[l].waiters, script);
    NothingPending(s, l);
    CloseListenerKeeps(s, l, {}, -1, []);
    hide During;
  }

  lemma {:induction false} NothingPending(r: Router, l: nat)
    requires During(r, {l}, l, [])
    ensures During(r, {} + {l}, -1, [])
  {
    assert {} + {l} == {l};
  }

  lemma {:induction false} FailListenersKeeps(r: Router, ls: seq<nat>, scripts: seq<seq<seq<Stop>>>)
    requires Inv(r) && forall i :: 0 <= i < |ls| ==> ls[i] < |r.all|
    ensures Inv(FailListeners(r, ls, scripts))
    decreases |ls|
  {
    if ls != [] {
      FailAllKeeps(r, ls[0], if scripts == [] then [] else scripts[0]);
      hide Inv;
      FailListenersKeeps(FailAll(r, ls[0], if scripts == [] then [] else scripts[0]), ls[1..],
                         if scripts == [] then [] else scripts[1..]);
    }
  }

  // -------------------------------------------------------------- every step

  /** What the SDK calls of the two coroutines do. */
  lemma {:induction false} CoroutineKeeps(r: Router, step: Step)
    requires Inv(r) && Enabled(r, step)
    requires step.OpenResumes? || step.SessionSettles?
    ensures Inv(Apply(r, step))
  {
    hide SessionOrder;
    hide ClosingMap;
    hide Ledger;
    hide Registration;
    hide Ordered;
    var l := step.listener;
    assert Lifecycle(r.all[l]);
    if r.session { PreviousSettledAll(r, l); }
    hide Lifecycles;
    PutMoves(r, l, Apply(r, step).all[l], {}, -1, []);
  }

  lemma {:induction false} OpenFailsKeeps(r: Router, l: nat, script: seq<seq<Stop>>)
    requires Inv(r) && Enabled(r, OpenFails(l, script))
    ensures Inv(OpenFailsIn(r, l, script))
  {
    var next := if r.all[l].closed then r else FailAll(r, l, script);
    assert Lifecycle(r.all[l]);
    if !r.all[l].closed {
      FailAllKeeps(r, l, script);
      FailAllPhases(r, l, script, l);
    }
    assert Lifecycle(next.all[l]);
    assert next.all[l].opening.Failing?;
    if next.session { PreviousSettledAll(next, l); }
    PutMoves(next, l, next.all[l].(opening := Opened), {}, -1, []);
    hide During;
  }

  /** Failing requests moves no opening coroutine and reopens nothing. */
  lemma {:induction false} FailAllPhases(r: Router, l: nat, script: seq<seq<Stop>>, i: nat)
    requires l < |r.all| && i < |r.all|
    ensures FailAll(r, l, script).all[i].opening == r.all[i].opening
    ensures r.all[i].closed ==> FailAll(r, l, script).all[i].closed
  {
    FailEachPhases(Clear(r, l), r.all[l].waiters, script, i);
    FailEachSize(Clear(r, l), r.all[l].waiters, script);
  }

  lemma {:induction false} StopAllPhases(r: Router, stops: seq<Stop>, i: nat)
    requires i < |r.all|
    ensures |StopAll(r, stops).all| == |r.all|
    ensures StopAll(r, stops).all[i].opening == r.all[i].opening
    ensures r.all[i].closed ==> StopAll(r, stops).all[i].closed
    decreases |stops|
  {
    hide CloseListener;
    hide Recent.Without;
    hide Recent.Added;
    if stops != [] { StopAllPhases(StopWaitingIn(r, stops[0].listener, stops[0].id), stops[1..], i); }
  }

  lemma {:induction false} FailEachPhases(r: Router, ids: seq<string>, script: seq<seq<Stop>>, i: nat)
    requires i < |r.all|
    ensures |FailEach(r, ids, script).all| == |r.all|
    ensures FailEach(r, ids, script).all[i].opening == r.all[i].opening
    ensures r.all[i].closed ==> FailEach(r, ids, script).all[i].closed
    decreases |ids|
  {
    if ids != [] {
      var stops := if script == [] then [] else script[0];
      StopAllPhases(Fail(r, ids[0]), stops, i);
      FailEachPhases(StopAll(Fail(r, ids[0]), stops), ids[1..], if script == [] then [] else script[1..], i);
    }
  }

  lemma {:induction false} ClosingKeeps(r: Router, step: Step)
    requires Inv(r) && Enabled(r, step)
    requires step.CloseResumes? || step.ReceiverCloses? || step.SubscriptionCloses?
    ensures Inv(Apply(r, step))
  {
    var l := step.listener;
    var x := r.all[l];
    assert Lifecycle(x);
    hide SessionOrder;
    hide ClosingMap;
    hide Ledger;
    hide Registration;
    hide Lifecycles;
    hide Settle;
    match step {
      case CloseResumes(_) => CloseResumesKeeps(r, l);
      case ReceiverCloses(_, ok) => ReceiverClosesKeeps(r, l, ok);
      case SubscriptionCloses(_) =>
        SettleKeeps(r, l, x);
        assert Put(r, l, x) == r;
    }
  }

  lemma {:induction false} CloseResumesKeeps(r: Router, l: nat)
    requires Inv(r) && Enabled(r, CloseResumes(l))
    ensures Inv(CloseResumesIn(r, l))
  {
    var x := r.all[l];
    assert Lifecycle(x);
    hide SessionOrder;
    hide ClosingMap;
    hide Ledger;
    hide Registration;
    hide Lifecycles;
    hide Settle;
    if x.receiver {
      PutMoves(r, l, x.(closing := ClosingReceiver, closeCalls := x.closeCalls + 1), {}, -1, []);
    } else {
      SettleKeeps(r, l, x.(aborted := true));
    }
  }

  lemma {:induction false} ReceiverClosesKeeps(r: Router, l: nat, ok: bool)
    requires Inv(r) && Enabled(r, ReceiverCloses(l, ok))
    ensures Inv(ReceiverClosesIn(r, l, ok))
  {
    var x := r.all[l];
    assert Lifecycle(x);
    hide SessionOrder;
    hide ClosingMap;
    hide Ledger;
    hide Registration;
    hide Lifecycles;
    hide Settle;
    if ok && x.subscribed {
      PutMoves(r, l, x.(aborted := true, closing := ClosingSubscription), {}, -1, []);
    } else {
      SettleKeeps(r, l, x.(aborted := true));
    }
  }

  lemma {:induction false} StepKeeps(r: Router, step: Step)
    requires Inv(r) && Enabled(r, step)
    ensures Inv(Apply(r, step))
  {
    match step {
      case Wait(replyTo, id) => WaitKeeps(r, replyTo, id);
      case StopWaiting(l, id) => StopWaitingKeeps(r, l, id, {}, -1, []);
      case OpenResumes(_, _) => CoroutineKeeps(r, step);
      case SessionSettles(_, _) => CoroutineKeeps(r, step);
      case OpenFails(l, script) => OpenFailsKeeps(r, l, script);
      case CloseResumes(_) => ClosingKeeps(r, step);
      case ReceiverCloses(_, _) => ClosingKeeps(r, step);
      case SubscriptionCloses(_) => ClosingKeeps(r, step);
      case FatalError(l, script) => FailAllKeeps(r, l, script);
      case CloseRouter(scripts) => FailListenersKeeps(r, Registered(r, 0), scripts);
    }
  }

  lemma {:induction false} EmptyInv(session: bool)
    ensures Inv(Empty(session))
  {
  }

  /** Every state of every run satisfies the invariant. */
  lemma {:induction false} RunKeeps(r: Router, steps: seq<Step>)
    requires Inv(r) && Legal(r, steps)
    ensures Inv(Exec(r, steps))
    decreases |steps|
  {
    hide Inv;
    if steps != [] {
      StepKeeps(r, steps[0]);
      RunKeeps(Apply(r, steps[0]), steps[1..]);
    }
  }
}
