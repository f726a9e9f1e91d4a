/**
 * The fields of the client that `close()` and the sends share, and how each
 * stretch of code between two awaits changes them.
 */
module AzureServiceBusClient {
  import opened Values
  import opened Timers
  import opened ClientClose
  import opened ClientCloseInvariant

  /** What the client keeps about a send until its sender has closed. */
  class Sending {
    var byClose: bool
    /** Whether the signal that the SDK got is aborted: by a `close()`, or by the caller. */
    var aborted: bool
    /** Whether the caller's signal, if there is one, is still listened to. */
    var listens: bool

    /** A signal the caller has already aborted is forwarded at once, and not listened to. */
    constructor (callerAborted: bool)
      ensures !byClose && aborted == callerAborted && listens == !callerAborted
    {
      byClose, aborted, listens := false, callerAborted, !callerAborted;
    }
  }

  /** The sends in `sending`: those that have not settled. */
  function SendsInProgress(works: seq<Work>): set<nat> {
    set k: nat | k < |works| && works[k].kind.Send? && !works[k].settled
  }

  /** The promises numbered from `first` on. */
  function Numbered(first: nat, count: nat): set<nat>
    decreases count
  {
    if count == 0 then {} else {first} + Numbered(first + 1, count - 1)
  }

  class Client {
    const closeTimeoutInMs: Limit
    var sbClient: Option<nat>
    var sending: map<nat, Sending>
    var inFlight: set<nat>
    /** The state of the run so far. */
    ghost var model: ClientClose.Client

    /** The fields are in the state of the model. */
    ghost predicate Ties()
      reads this, sending.Values
    {
      && model.timeout == closeTimeoutInMs
      && model.current == sbClient
      && sending.Keys == SendsInProgress(model.works)
      && inFlight == InFlight(model.works)
      && (forall k :: k in sending ==> sending[k].byClose == model.works[k].byClose)
      && (forall k :: k in sending && sending[k].byClose ==> sending[k].aborted)
      && (forall j, k :: j in sending && k in sending && sending[j] == sending[k] ==> j == k)
    }

    ghost predicate Valid()
      reads this, sending.Values
    {
      Ties() && Inv(model)
    }

    constructor (closeTimeoutInMs: Limit)
      requires Honoured(closeTimeoutInMs)
      ensures Valid() && model == NewClient(closeTimeoutInMs) && sending == map[]
    {
      this.closeTimeoutInMs := closeTimeoutInMs;
      sbClient, sending, inFlight := None, map[], {};
      model := NewClient(closeTimeoutInMs);
      new;
      NewInv(closeTimeoutInMs);
    }

    /** `connect()`; `created` is the new connection if there was none. */
    method Connect(created: nat)
      requires Valid() && created == |model.closeCalls|
      modifies this`sbClient, this`model
      ensures Valid()
      ensures model == if old(sbClient).None? then Apply(old(model), Step.Connect) else old(model)
    {
      if sbClient.None? {
        StepKeeps(model, Step.Connect);
        sbClient := Some(created);
        model := Apply(model, Step.Connect);
      }
      hide Inv;
    }

    /** `sendTo()` up to its first await; `promise` names the promise it puts in `sending`. */
    method SendTo(promise: nat, callerAborted: bool)
      requires Valid() && Enabled(model, StartSend) && promise == |model.works|
      modifies this`sending, this`model
      ensures Valid() && model == Apply(old(model), StartSend)
      ensures promise in sending && fresh(sending[promise])
      ensures sending == old(sending)[promise := sending[promise]]
      ensures sending[promise].aborted == callerAborted && sending[promise].listens == !callerAborted
    {
      StepKeeps(model, StartSend);
      hide Inv;
      var state := new Sending(callerAborted);
      sending := sending[promise := state];
      model := Apply(model, StartSend);
    }

    /** The caller aborts its own signal: the send is aborted, unless the SDK is done with it. */
    method CallerAborts(promise: nat)
      requires Valid() && promise in sending
      modifies sending[promise]
      ensures Valid()
      ensures sending[promise].byClose == old(sending[promise].byClose)
      ensures sending[promise].listens == old(sending[promise].listens)
      ensures sending[promise].aborted == (old(sending[promise].aborted) || sending[promise].listens)
    {
      hide Inv;
      if sending[promise].listens {
        sending[promise].aborted := true;
      }
    }

    /** `sendMessages()` settled: the caller's signal concerns the send no more, and its sender closes. */
    method SdkIsDone(promise: nat)
      requires Valid() && promise in sending
      modifies sending[promise]
      ensures Valid() && !sending[promise].listens
      ensures sending[promise].byClose == old(sending[promise].byClose)
      ensures sending[promise].aborted == old(sending[promise].aborted)
    {
      hide Inv;
      sending[promise].listens := false;
    }

    /** `track()` of a receiver being closed */
    method Track(work: nat, connection: Option<nat>)
      requires Valid() && Enabled(model, Step.Track(connection)) && work == |model.works|
      modifies this`inFlight, this`model
      ensures Valid() && model == Apply(old(model), Step.Track(connection))
    {
      StepKeeps(model, Step.Track(connection));
      hide Inv;
      inFlight := inFlight + {work};
      model := Apply(model, Step.Track(connection));
    }

    /** A send or a closing settled: it leaves `sending` or `inFlight`. */
    method Settles(work: nat)
      requires Valid() && Enabled(model, Settle(work))
      modifies this`sending, this`inFlight, this`model
      ensures Valid() && model == Apply(old(model), Settle(work))
    {
      StepKeeps(model, Settle(work));
      hide Inv;
      sending := sending - {work};
      inFlight := inFlight - {work};
      model := Apply(model, Settle(work));
    }

    /** The first line of `close()` */
    method Close(now: real) returns (deadline: Limit)
      requires Valid() && now == model.now
      modifies this`model
      ensures Valid() && model == Apply(old(model), Step.Close)
      ensures deadline == model.closers[|old(model).closers|].deadline
    {
      StepKeeps(model, Step.Close);
      hide Inv;
      deadline := DeadlineOf(now, closeTimeoutInMs);
      model := Apply(model, Step.Close);
    }

    /** `settleSends()` from the top of its loop to its next await, or its end. */
    method SettleSends(i: nat, now: real, deadline: Limit)
      requires Valid() && i < |model.closers| && now == model.now && deadline == model.closers[i].deadline
      requires model.closers[i].phase.SettlingSends?
      modifies this`model, sending.Values
      ensures Valid() && model == Apply(old(model), Run(i, []))
    {
      hide Inv;
      SettleSendsKeeps(model, i, model.closers[i].phase.second);
      ghost var next := Apply(model, Run(i, []));
      var left := LiveSends();
      if left != {} && !Before(now, deadline) {
        CancelAll(left, Cancel(i, now));
      }
      model := next;
    }

    /** `live()` */
    method LiveSends() returns (live: set<nat>)
      requires Ties()
      ensures live == Live(model.works)
    {
      live := set k | k in sending && !sending[k].byClose;
    }

    /** Each of the sends left is marked and aborted. */
    method CancelAll(left: set<nat>, ghost cancel: Cancel)
      requires Ties() && left == Live(model.works)
      modifies this`model, sending.Values
      ensures Ties() && model == old(model).(works := CancelLive(old(model).works, cancel))
    {
      var rest := left;
      while rest != {}
        invariant rest <= left && unchanged(this)
        invariant forall k :: k in sending ==>
          sending[k].byClose == (old(sending[k].byClose) || k in left - rest)
        invariant forall k :: k in sending && sending[k].byClose ==> sending[k].aborted
        decreases rest
      {
        var k :| k in rest;
        sending[k].byClose := true;
        sending[k].aborted := true;
        rest := rest - {k};
      }
      ghost var works := CancelLive(model.works, cancel);
      assert SendsInProgress(works) == SendsInProgress(model.works);
      assert InFlight(works) == InFlight(model.works);
      model := model.(works := works);
    }

    /**
     * `replies.close()`, which tracks the closings of the `receivers` it still had,
     * numbered from `first`, and `settleReceivers()` up to its await.
     */
    method CloseReplies(i: nat, receivers: seq<Option<nat>>, first: nat)
      requires Valid() && Enabled(model, Run(i, receivers)) && model.closers[i].phase.ClosingReplies?
      requires first == |model.works|
      modifies this`inFlight, this`model
      ensures Valid() && model == Apply(old(model), Run(i, receivers))
    {
      CloseRepliesKeeps(model, i, receivers);
      TrackAllFrame(model, receivers);
      TrackAllSets(model, receivers);
      hide Inv;
      hide TrackAll;
      AddInFlight(first, |receivers|);
      model := Apply(model, Run(i, receivers));
    }

    method AddInFlight(first: nat, count: nat)
      modifies this`inFlight
      ensures inFlight == old(inFlight) + Numbered(first, count)
    {
      for k := 0 to count
        invariant inFlight + Numbered(first + k, count - k) == old(inFlight) + Numbered(first, count)
      {
        inFlight := inFlight + {first + k};
      }
    }

    /**
     * The end of `close()`: it takes the connection, and closes it at once if
     * nothing in flight could still use it.
     */
    method TakeConnection(i: nat) returns (client: Option<nat>, stuck: set<nat>)
      requires Valid() && i < |model.closers| && model.closers[i].phase.Swapping?
      modifies this`sbClient, this`model
      ensures Valid() && model == Apply(old(model), Run(i, [])) && sbClient == None
      ensures client == old(sbClient) && stuck == Unsettled(model.works)
      ensures client.Some? && stuck != {} ==> model.closers[i].phase == Deferred(client.value, stuck)
      ensures client.Some? && stuck == {} ==> model.closeCalls == CloseConnection(old(model), client.value).closeCalls
    {
      SwapKeeps(model, i);
      hide Inv;
      client := sbClient;
      sbClient := None;
      stuck := sending.Keys + inFlight;
      assert stuck == Unsettled(model.works);
      model := Apply(model, Run(i, []));
    }
  }

  lemma {:induction false} TrackAllSets(c: ClientClose.Client, receivers: seq<Option<nat>>)
    ensures
      var next, n := TrackAll(c, receivers), |c.works|;
      && |next.works| == n + |receivers|
      && SendsInProgress(next.works) == SendsInProgress(c.works)
      && InFlight(next.works) == InFlight(c.works) + Numbered(n, |receivers|)
    decreases |receivers|
  {
    if receivers != [] {
      var b := Begin(c, ReceiverClosing, receivers[0]);
      TrackAllSets(b, receivers[1..]);
      assert SendsInProgress(b.works) == SendsInProgress(c.works);
      assert InFlight(b.works) == InFlight(c.works) + {|c.works|};
    }
  }
}
