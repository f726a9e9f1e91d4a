/**
 * `ReplyRouter` as a state machine: one shared listener per reply queue, opened
 * by the first request that waits and closed with the last one, with the
 * asynchronous opening and closing of its receiver.
 *
 * A step is what runs between two awaits. The SDK decides how each of its calls
 * ends and when; callers decide when to wait and to stop waiting.
 */
module RouterModel {
  import opened Values
  import Recent = RecentIds

  const FINISHED_IDS_LIMIT: nat := 1000

  /** Where the coroutine of `open()` is. */
  datatype Opening =
    | AwaitingPrevious(previous: Option<nat>)   // the listener whose closing it awaits
    | Acquiring                                 // acceptSession() has not settled
    | Failing                                   // it threw; `catch` has not run
    | Opened                                    // `opened` is settled

  /** Where the coroutine of `closeListener()` is. */
  datatype Closing = NotClosing | AwaitingOpened | ClosingReceiver | ClosingSubscription | Settled

  datatype Listener = Listener(
    replyTo: string,
    waiters: seq<string>,     // the ids of the `waiters` map, in insertion order
    closed: bool,
    aborted: bool,            // its AbortController
    receiver: bool,           // whether it has a receiver
    subscribed: bool,         // whether the receiver is subscribed
    opening: Opening,
    closing: Closing,
    closeCalls: nat           // history: calls of receiver.close()
  )

  /** What became of a request that waited. */
  datatype Fate = Waiting(listener: nat) | Stopped | Failed

  datatype Router = Router(
    session: bool,            // whether replies use a session
    listeners: map<string, nat>,
    closing: map<string, nat>,
    finished: seq<string>,    // RecentIds, oldest first
    all: seq<Listener>,       // every listener created, in order
    fate: map<string, Fate>,  // history
    failures: seq<string>,    // history: calls of waiter.fail(), in order
    ended: seq<string>        // history: the requests that ended, in order
  )

  /** How an SDK call of `open()` ends: it throws, subscribe() throws, or all goes well. */
  datatype OpenResult = Throws | SubscribeThrows | Goes

  /** A `stopWaiting()` call made by the code a failed request runs. */
  datatype Stop = Stop(listener: nat, id: string)

  function Empty(session: bool): Router {
    Router(session, map[], map[], [], [], map[], [], [])
  }

  // ---------------------------------------------------------- the operations

  function Put(r: Router, l: nat, x: Listener): Router
    requires l < |r.all|
  {
    r.(all := r.all[l := x])
  }

  function NewListener(r: Router, replyTo: string): Listener {
    var previous := if r.session && replyTo in r.closing then Some(r.closing[replyTo]) else None;
    Listener(replyTo, [], false, false, false, false, AwaitingPrevious(previous), NotClosing, 0)
  }

  function Open(r: Router, replyTo: string): Router {
    r.(all := r.all + [NewListener(r, replyTo)], listeners := r.listeners[replyTo := |r.all|])
  }

  /** `waiters.set()` of a new id. */
  function Join(r: Router, l: nat, id: string): Router
    requires l < |r.all|
  {
    Put(r, l, r.all[l].(waiters := r.all[l].waiters + [id])).(fate := r.fate[id := Waiting(l)])
  }

  function WaitIn(r: Router, replyTo: string, id: string): Router
    requires replyTo in r.listeners ==> r.listeners[replyTo] < |r.all|
  {
    if replyTo in r.listeners then Join(r, r.listeners[replyTo], id)
    else Join(Open(r, replyTo), |r.all|, id)
  }

  function Unregister(r: Router, l: nat): Router
    requires l < |r.all|
  {
    var replyTo := r.all[l].replyTo;
    if replyTo in r.listeners && r.listeners[replyTo] == l then r.(listeners := r.listeners - {replyTo}) else r
  }

  /** The listener closes; with no receiver yet, the opening is cancelled at once. */
  function StartClosing(r: Router, l: nat): Router
    requires l < |r.all|
  {
    var x := r.all[l];
    Put(r, l, x.(closed := true, aborted := x.aborted || !x.receiver, closing := AwaitingOpened))
    .(closing := r.closing[x.replyTo := l])
  }

  /** What closing a listener leaves as it was. */
  predicate KeepsOpening(x: Listener, y: Listener) {
    && y.replyTo == x.replyTo && y.waiters == x.waiters && y.opening == x.opening
    && y.receiver == x.receiver && y.subscribed == x.subscribed
    && (x.closed ==> y.closed)
  }

  function CloseListener(r: Router, l: nat): (q: Router)
    requires l < |r.all|
    ensures |q.all| == |r.all| && forall i :: 0 <= i < |r.all| ==> KeepsOpening(r.all[i], q.all[i])
  {
    if r.all[l].closed then Unregister(r, l) else StartClosing(Unregister(r, l), l)
  }

  function Leave(r: Router, l: nat, id: string): Router
    requires l < |r.all|
  {
    Put(r, l, r.all[l].(waiters := Recent.Without(r.all[l].waiters, id)))
    .(finished := Recent.Added(r.finished, id, FINISHED_IDS_LIMIT), ended := r.ended + [id],
      fate := r.fate[id := Stopped])
  }

  /** `stopWaiting()`: does nothing for a request that no longer waits on the listener. */
  function StopWaitingIn(r: Router, l: nat, id: string): Router {
    if l >= |r.all| || id !in r.all[l].waiters then r
    else
      var next := Leave(r, l, id);
      if next.all[l].waiters == [] then CloseListener(next, l) else next
  }

  function StopAll(r: Router, stops: seq<Stop>): Router
    decreases |stops|
  {
    if stops == [] then r
    else StopAll(StopWaitingIn(r, stops[0].listener, stops[0].id), stops[1..])
  }

  function Fail(r: Router, id: string): Router {
    r.(finished := Recent.Added(r.finished, id, FINISHED_IDS_LIMIT), ended := r.ended + [id],
       fate := r.fate[id := Failed], failures := r.failures + [id])
  }

  /** The loop of `failAll()`: `script[i]` is what the i-th request's callback stops. */
  function FailEach(r: Router, ids: seq<string>, script: seq<seq<Stop>>): Router
    decreases |ids|
  {
    if ids == [] then r
    else
      var stops := if script == [] then [] else script[0];
      FailEach(StopAll(Fail(r, ids[0]), stops), ids[1..], if script == [] then [] else script[1..])
  }

  function Clear(r: Router, l: nat): Router
    requires l < |r.all|
  {
    Put(r, l, r.all[l].(waiters := []))
  }

  lemma {:induction false} StopAllSize(r: Router, stops: seq<Stop>)
    ensures |StopAll(r, stops).all| == |r.all|
    decreases |stops|
  {
    if stops != [] { StopAllSize(StopWaitingIn(r, stops[0].listener, stops[0].id), stops[1..]); }
  }

  lemma {:induction false} FailEachSize(r: Router, ids: seq<string>, script: seq<seq<Stop>>)
    ensures |FailEach(r, ids, script).all| == |r.all|
    decreases |ids|
  {
    if ids != [] {
      var stops := if script == [] then [] else script[0];
      StopAllSize(Fail(r, ids[0]), stops);
      FailEachSize(StopAll(Fail(r, ids[0]), stops), ids[1..], if script == [] then [] else script[1..]);
    }
  }

  function FailAll(r: Router, l: nat, script: seq<seq<Stop>>): (q: Router)
    requires l < |r.all|
    ensures |q.all| == |r.all|
  {
    FailEachSize(Clear(r, l), r.all[l].waiters, script);
    CloseListener(FailEach(Clear(r, l), r.all[l].waiters, script), l)
  }

  /** The listeners registered when `close()` runs, in the order the map lists them. */
  function Registered(r: Router, from: nat): (ls: seq<nat>)
    ensures forall i :: 0 <= i < |ls| ==> from <= ls[i] < |r.all|
    decreases |r.all| - from
  {
    if from >= |r.all| then []
    else
      var x := r.all[from];
      (if x.replyTo in r.listeners && r.listeners[x.replyTo] == from then [from] else []) + Registered(r, from + 1)
  }

  function FailListeners(r: Router, ls: seq<nat>, scripts: seq<seq<seq<Stop>>>): Router
    requires forall i :: 0 <= i < |ls| ==> ls[i] < |r.all|
    decreases |ls|
  {
    if ls == [] then r
    else FailListeners(FailAll(r, ls[0], if scripts == [] then [] else scripts[0]), ls[1..],
                       if scripts == [] then [] else scripts[1..])
  }

  // ------------------------------------------------- the opening coroutine

  /** The listener once `previous` settled. */
  function ResumeOpening(x: Listener, session: bool, result: OpenResult): Listener {
    if x.closed then x.(opening := Opened)
    else if result.Throws? then x.(opening := Failing)
    else if session then x.(opening := Acquiring)
    else Subscribe(x, result)
  }

  function OpenResumesIn(r: Router, l: nat, result: OpenResult): Router
    requires l < |r.all|
  {
    Put(r, l, ResumeOpening(r.all[l], r.session, result))
  }

  /** The receiver is there: subscribe, unless the listener closed meanwhile. */
  function Subscribe(x: Listener, result: OpenResult): Listener {
    if x.closed then x.(receiver := true, opening := Opened)
    else if result.SubscribeThrows? then x.(receiver := true, opening := Failing)
    else x.(receiver := true, subscribed := true, opening := Opened)
  }

  /** The listener once `acceptSession()` settled. */
  function SettleSession(x: Listener, result: OpenResult): Listener {
    if result.Throws? then x.(opening := Failing) else Subscribe(x, result)
  }

  function SessionSettlesIn(r: Router, l: nat, result: OpenResult): Router
    requires l < |r.all|
  {
    Put(r, l, SettleSession(r.all[l], result))
  }

  function OpenFailsIn(r: Router, l: nat, script: seq<seq<Stop>>): Router
    requires l < |r.all|
  {
    var next := if r.all[l].closed then r else FailAll(r, l, script);
    Put(next, l, next.all[l].(opening := Opened))
  }

  // ------------------------------------------------- the closing coroutine

  function ForgetClosing(r: Router, l: nat): (q: Router)
    requires l < |r.all|
    ensures q.all == r.all
  {
    var replyTo := r.all[l].replyTo;
    if replyTo in r.closing && r.closing[replyTo] == l then r.(closing := r.closing - {replyTo}) else r
  }

  function Settle(r: Router, l: nat): Router
    requires l < |r.all|
  {
    ForgetClosing(Put(r, l, r.all[l].(closing := Settled)), l)
  }

  function CloseResumesIn(r: Router, l: nat): Router
    requires l < |r.all|
  {
    var x := r.all[l];
    if x.receiver then Put(r, l, x.(closing := ClosingReceiver, closeCalls := x.closeCalls + 1))
    else Settle(Put(r, l, x.(aborted := true)), l)
  }

  function ReceiverClosesIn(r: Router, l: nat, ok: bool): Router
    requires l < |r.all|
  {
    var x := r.all[l].(aborted := true);
    if ok && x.subscribed then Put(r, l, x.(closing := ClosingSubscription))
    else Settle(Put(r, l, x), l)
  }

  // ---------------------------------------------------------------- the runs

  datatype Step =
    | Wait(replyTo: string, id: string)
    | StopWaiting(listener: nat, id: string)
    | OpenResumes(listener: nat, result: OpenResult)
    | SessionSettles(listener: nat, result: OpenResult)
    | OpenFails(listener: nat, script: seq<seq<Stop>>)
    | CloseResumes(listener: nat)
    | ReceiverCloses(listener: nat, ok: bool)
    | SubscriptionCloses(listener: nat)
    | FatalError(listener: nat, script: seq<seq<Stop>>)
    | CloseRouter(scripts: seq<seq<seq<Stop>>>)

  predicate PreviousSettled(r: Router, previous: Option<nat>) {
    previous.Some? ==> previous.value < |r.all| && r.all[previous.value].closing.Settled?
  }

  predicate Enabled(r: Router, step: Step) {
    match step
    case Wait(replyTo, id) =>
      id !in r.fate && (replyTo in r.listeners ==> r.listeners[replyTo] < |r.all|)
    case StopWaiting(l, id) => l < |r.all|
    case OpenResumes(l, result) =>
      && l < |r.all| && r.all[l].opening.AwaitingPrevious?
      && PreviousSettled(r, r.all[l].opening.previous)
      && (r.session ==> !result.SubscribeThrows?)
    case SessionSettles(l, result) => l < |r.all| && r.all[l].opening.Acquiring?
    case OpenFails(l, script) => l < |r.all| && r.all[l].opening.Failing?
    case CloseResumes(l) => l < |r.all| && r.all[l].closing.AwaitingOpened? && r.all[l].opening.Opened?
    case ReceiverCloses(l, ok) => l < |r.all| && r.all[l].closing.ClosingReceiver?
    case SubscriptionCloses(l) => l < |r.all| && r.all[l].closing.ClosingSubscription?
    case FatalError(l, script) => l < |r.all| && r.all[l].subscribed
    case CloseRouter(scripts) => true
  }

  function Apply(r: Router, step: Step): Router
    requires Enabled(r, step)
  {
    match step
    case Wait(replyTo, id) => WaitIn(r, replyTo, id)
    case StopWaiting(l, id) => StopWaitingIn(r, l, id)
    case OpenResumes(l, result) => OpenResumesIn(r, l, result)
    case SessionSettles(l, result) => SessionSettlesIn(r, l, result)
    case OpenFails(l, script) => OpenFailsIn(r, l, script)
    case CloseResumes(l) => CloseResumesIn(r, l)
    case ReceiverCloses(l, ok) => ReceiverClosesIn(r, l, ok)
    case SubscriptionCloses(l) => Settle(r, l)
    case FatalError(l, script) => if r.all[l].closed then r else FailAll(r, l, script)
    case CloseRouter(scripts) => FailListeners(r, Registered(r, 0), scripts)
  }

  predicate Legal(r: Router, steps: seq<Step>)
    decreases |steps|
  {
    steps == [] || (Enabled(r, steps[0]) && Legal(Apply(r, steps[0]), steps[1..]))
  }

  function Exec(r: Router, steps: seq<Step>): Router
    requires Legal(r, steps)
    decreases |steps|
  {
    if steps == [] then r else Exec(Apply(r, steps[0]), steps[1..])
  }
}
