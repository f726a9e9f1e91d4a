/**
 * `close()` of the client, as a timed state machine: the sends in flight, the
 * reply receivers being closed, the connection in use, and any number of
 * `close()` calls going on at once, with a clock and exact timers.
 *
 * A step is what runs between two awaits. Sends and closings settle whenever
 * the SDK decides, or never. Code that can run does so before time passes.
 */
module ClientClose {
  import opened Values
  import opened Timers

  const SEND_CANCEL_WAIT_MS: real := 1000.0

  datatype Kind = Send | ReceiverClosing

  /** The call of `close()` that aborted a send, and when. */
  datatype Cancel = Cancel(closer: nat, at: real)

  /**
   * A promise of `sending` or of `inFlight`; it is in its map or set until it
   * settles. A receiver that closes before it opened has no connection.
   */
  datatype Work = Work(
    kind: Kind,
    connection: Option<nat>,
    early: bool,               // history: it started while its connection was the client's
    settled: bool,
    byClose: bool,
    cancels: nat,              // history: how often a close() aborted it
    cancel: Option<Cancel>     // history: the last time
  )

  /** Where a call of `close()` is; `second` tells its two calls of `settleSends()` apart. */
  datatype Phase =
    | SettlingSends(second: bool)
    | AwaitingSends(second: bool, awaited: set<nat>, until: Limit)
    | AwaitingCancelled(second: bool, awaited: set<nat>, until: Limit)
    | ClosingReplies
    | AwaitingReceivers(until: Limit)
    | Swapping
    | Deferred(connection: nat, awaited: set<nat>)
    | Finished

  /** When a call closed the replies, and how many works had started by then. */
  datatype RepliesClosed = RepliesClosed(at: real, works: nat)

  datatype Closer = Closer(
    begun: real,
    deadline: Limit,
    phase: Phase,
    replies: Option<RepliesClosed>   // history
  )

  datatype Client = Client(
    timeout: Limit,           // closeTimeoutInMs
    now: real,
    current: Option<nat>,     // sbClient: the connection in use
    closeCalls: seq<nat>,     // history: per connection made, the calls of its close()
    works: seq<Work>,         // history: every send and closing, in order
    closers: seq<Closer>      // every call of close(), in order
  )

  datatype Step =
    | Connect
    | StartSend
    | Track(connection: Option<nat>)
    | Settle(work: nat)
    | Close
    | Run(closer: nat, receivers: seq<Option<nat>>)   // the connections of the receivers replies.close() closes
    | Tick(to: real)

  function NewClient(timeout: Limit): Client {
    Client(timeout, 0.0, None, [], [], [])
  }

  // ------------------------------------------------------------- the sets

  /** The sends `settleSends()` waits for: not those a `close()` has cancelled. */
  predicate IsLive(w: Work) {
    w.kind.Send? && !w.settled && !w.byClose
  }

  function Live(works: seq<Work>): set<nat> {
    set k: nat | k < |works| && IsLive(works[k])
  }

  function InFlight(works: seq<Work>): set<nat> {
    set k: nat | k < |works| && works[k].kind.ReceiverClosing? && !works[k].settled
  }

  /** `[...this.sending.keys(), ...this.inFlight]` */
  function Unsettled(works: seq<Work>): set<nat> {
    set k: nat | k < |works| && !works[k].settled
  }

  predicate AllSettled(works: seq<Work>, awaited: set<nat>) {
    forall k :: k in awaited && k < |works| ==> works[k].settled
  }

  // ------------------------------------------------------------ the steps

  function Begin(c: Client, kind: Kind, connection: Option<nat>): Client {
    var early := connection.Some? && c.current == connection;
    c.(works := c.works + [Work(kind, connection, early, false, false, 0, None)])
  }

  /** The receivers `replies.close()` starts to close, each on its connection. */
  function TrackAll(c: Client, receivers: seq<Option<nat>>): Client
    decreases |receivers|
  {
    if receivers == [] then c else TrackAll(Begin(c, ReceiverClosing, receivers[0]), receivers[1..])
  }

  function MoveTo(c: Client, i: nat, phase: Phase): Client
    requires i < |c.closers|
  {
    c.(closers := c.closers[i := c.closers[i].(phase := phase)])
  }

  /** What follows `settleSends()`. */
  function AfterSends(second: bool): Phase {
    if second then Swapping else ClosingReplies
  }

  function CancelOne(w: Work, cancel: Cancel): Work {
    if IsLive(w) then w.(byClose := true, cancels := w.cancels + 1, cancel := Some(cancel)) else w
  }

  function CancelLive(works: seq<Work>, cancel: Cancel): (r: seq<Work>)
    ensures |r| == |works| && forall k :: 0 <= k < |works| ==> r[k] == CancelOne(works[k], cancel)
  {
    seq(|works|, k requires 0 <= k < |works| => CancelOne(works[k], cancel))
  }

  /** `settleSends()` from the top of its loop to its next await, or its end. */
  function SettleSends(c: Client, i: nat, second: bool): Client
    requires i < |c.closers|
  {
    var live, deadline := Live(c.works), c.closers[i].deadline;
    if live == {} then MoveTo(c, i, AfterSends(second))
    else if Before(c.now, deadline) then
      MoveTo(c, i, AwaitingSends(second, live, FiresAt(c.now, Left(deadline, c.now))))
    else
      MoveTo(c.(works := CancelLive(c.works, Cancel(i, c.now))), i,
             AwaitingCancelled(second, live, FiresAt(c.now, At(SEND_CANCEL_WAIT_MS))))
  }

  /** At most `SEND_CANCEL_WAIT_MS` past the deadline, or as long as there is. */
  function ReceiversWait(deadline: Limit, now: real): Limit {
    match Left(deadline, now)
    case Never => Never
    case At(left) => At(Max(left, SEND_CANCEL_WAIT_MS))
  }

  function NoteReplies(c: Client, i: nat): (r: Client)
    requires i < |c.closers|
    ensures |r.closers| == |c.closers| && r == c.(closers := r.closers)
  {
    c.(closers := c.closers[i := c.closers[i].(replies := Some(RepliesClosed(c.now, |c.works|)))])
  }

  /** `settleReceivers()` up to its await, once `replies.close()` tracked what it closes. */
  function SettleReceivers(c: Client, i: nat): (r: Client)
    requires i < |c.closers|
    ensures |r.closers| == |c.closers|
  {
    var next := NoteReplies(c, i);
    if InFlight(next.works) == {} then MoveTo(next, i, SettlingSends(true))
    else MoveTo(next, i, AwaitingReceivers(FiresAt(c.now, ReceiversWait(c.closers[i].deadline, c.now))))
  }

  /** `replies.close()`, then `settleReceivers()` up to its await. */
  function CloseReplies(c: Client, i: nat, receivers: seq<Option<nat>>): (r: Client)
    requires i < |c.closers|
    ensures |r.closers| == |c.closers|
  {
    TrackAllFrame(c, receivers);
    SettleReceivers(TrackAll(c, receivers), i)
  }

  lemma {:induction false} TrackAllFrame(c: Client, receivers: seq<Option<nat>>)
    ensures TrackAll(c, receivers) == c.(works := TrackAll(c, receivers).works)
    ensures c.works <= TrackAll(c, receivers).works
    decreases |receivers|
  {
    if receivers != [] { TrackAllFrame(Begin(c, ReceiverClosing, receivers[0]), receivers[1..]); }
  }

  function CloseConnection(c: Client, connection: nat): Client {
    if connection < |c.closeCalls| then
      c.(closeCalls := c.closeCalls[connection := c.closeCalls[connection] + 1])
    else c
  }

  /** The end of `close()`: it takes the connection, and closes it once nothing uses it. */
  function Swap(c: Client, i: nat): Client
    requires i < |c.closers|
  {
    var next := c.(current := None);
    var stuck := Unsettled(c.works);
    match c.current
    case None => MoveTo(next, i, Finished)
    case Some(connection) =>
      if stuck != {} then MoveTo(next, i, Deferred(connection, stuck))
      else MoveTo(CloseConnection(next, connection), i, Finished)
  }

  /** Whether the call can go on now. */
  predicate Runnable(c: Client, x: Closer) {
    match x.phase
    case AwaitingSends(_, awaited, until) => AllSettled(c.works, awaited) || !Before(c.now, until)
    case AwaitingCancelled(_, awaited, until) => AllSettled(c.works, awaited) || !Before(c.now, until)
    case AwaitingReceivers(until) => InFlight(c.works) == {} || !Before(c.now, until)
    case Deferred(_, awaited) => AllSettled(c.works, awaited)
    case Finished => false
    case _ => true
  }

  function RunIn(c: Client, i: nat, receivers: seq<Option<nat>>): (r: Client)
    requires i < |c.closers|
    ensures |r.closers| == |c.closers|
  {
    match c.closers[i].phase
    case SettlingSends(second) => SettleSends(c, i, second)
    case AwaitingSends(second, _, _) => MoveTo(c, i, SettlingSends(second))
    case AwaitingCancelled(second, _, _) => MoveTo(c, i, AfterSends(second))
    case ClosingReplies => CloseReplies(c, i, receivers)
    case AwaitingReceivers(_) => MoveTo(c, i, SettlingSends(true))
    case Swapping => Swap(c, i)
    case Deferred(connection, _) => MoveTo(CloseConnection(c, connection), i, Finished)
    case Finished => c
  }

  /** The timer a call waits for, if it waits for one. */
  function Timer(phase: Phase): Limit {
    match phase
    case AwaitingSends(_, _, until) => until
    case AwaitingCancelled(_, _, until) => until
    case AwaitingReceivers(until) => until
    case _ => Never
  }

  predicate Known(c: Client, connection: Option<nat>) {
    connection.Some? ==> connection.value < |c.closeCalls|
  }

  predicate AllKnown(c: Client, receivers: seq<Option<nat>>) {
    forall k :: 0 <= k < |receivers| ==> Known(c, receivers[k])
  }

  predicate Enabled(c: Client, step: Step) {
    match step
    case Connect => c.current.None?
    case StartSend => c.current.Some?
    case Track(connection) => Known(c, connection)
    case Settle(k) => k < |c.works| && !c.works[k].settled
    case Close => true
    case Run(i, receivers) =>
      && i < |c.closers| && Runnable(c, c.closers[i])
      && AllKnown(c, receivers)
    case Tick(to) =>
      && c.now < to
      && forall i :: 0 <= i < |c.closers| ==>
           !Runnable(c, c.closers[i]) && NotPast(to, Timer(c.closers[i].phase))
  }

  function Apply(c: Client, step: Step): Client
    requires Enabled(c, step)
  {
    match step
    case Connect => c.(current := Some(|c.closeCalls|), closeCalls := c.closeCalls + [0])
    case StartSend => Begin(c, Send, c.current)
    case Track(connection) => Begin(c, ReceiverClosing, connection)
    case Settle(k) => c.(works := c.works[k := c.works[k].(settled := true)])
    case Close => c.(closers := c.closers + [Closer(c.now, DeadlineOf(c.now, c.timeout), SettlingSends(false), None)])
    case Run(i, receivers) => RunIn(c, i, receivers)
    case Tick(to) => c.(now := to)
  }

  predicate Legal(c: Client, steps: seq<Step>)
    decreases |steps|
  {
    steps == [] || (Enabled(c, steps[0]) && Legal(Apply(c, steps[0]), steps[1..]))
  }

  function Exec(c: Client, steps: seq<Step>): Client
    requires Legal(c, steps)
    decreases |steps|
  {
    if steps == [] then c else Exec(Apply(c, steps[0]), steps[1..])
  }
}
