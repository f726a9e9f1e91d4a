/** The objects of `sendReply()`: what they hold and how each callback changes it. */
module ReplyStream {
  import opened Values
  import opened ReplyCodec
  import opened ReplyPipeline

  /** A subscription to a handler's Observable that the server can stop. */
  class FollowedObservable {
    var replied: bool
    var cancelledByClose: bool
    var stopped: bool
    /** Whether the Observable is subscribed and not unsubscribed yet. */
    var subscribed: bool

    constructor ()
      ensures !replied && !cancelledByClose && !stopped && !subscribed
    {
      replied, cancelledByClose, stopped, subscribed := false, false, false, false;
    }

    /**
     * `start()`: `stopped` while the source subscribes, if its own code does that
     * (`Some(byClose)`), it is unsubscribed once the subscription is there.
     */
    method Start(stopMeanwhile: Option<bool>) returns (onStop: bool)
      requires !subscribed
      modifies this
      ensures replied == old(replied)
      ensures stopMeanwhile.None? ==>
        !onStop && stopped == old(stopped) && cancelledByClose == old(cancelledByClose)
      ensures stopMeanwhile.Some? ==>
        stopped && onStop == !old(stopped)
        && cancelledByClose == if old(stopped) then old(cancelledByClose) else stopMeanwhile.value
      ensures subscribed <==> !stopped
    {
      onStop := false;
      if stopMeanwhile.Some? {
        onStop := Stop(stopMeanwhile.value);
      }
      if !stopped {
        subscribed := true;
      }
    }

    /** `stop()`; `onStop` says whether the callback of that name is called. */
    method Stop(byClose: bool) returns (onStop: bool)
      modifies this
      ensures onStop <==> !old(stopped)
      ensures old(stopped) ==> unchanged(this)
      ensures !old(stopped) ==>
        stopped && !subscribed && cancelledByClose == byClose && replied == old(replied)
    {
      if stopped {
        return false;
      }
      stopped := true;
      cancelledByClose := byClose;
      subscribed := false;
      return true;
    }
  }

  /** The values of the fields of a `SendReply`, its stream's included. */
  datatype Fields = Fields(
    batch: seq<Packet>, replied: bool, waiting: seq<Packet>, running: Option<Packet>, job: Job,
    jobsOver: nat, failed: bool, cancelled: bool, stream: Stream, ending: Ending)

  /** The fields in a given state of the run. */
  ghost function FieldsOf(p: Pipeline): Fields
    requires Inv(p)
  {
    Fields(p.source.batch, p.source.answered, p.source.scheduled[p.chain.started..],
           if p.chain.job.Publishing? then Some(p.source.scheduled[p.chain.settled]) else None,
           p.chain.job, p.chain.settled, p.chain.failed, p.chain.cancelled, p.stream, p.ending)
  }

  // How each step changes the fields.

  function ScheduledFields(single: bool, f: Fields, packet: Packet): Fields {
    if !single then f.(batch := Schedule(f.batch, packet))
    else if f.replied then f
    else f.(replied := true, waiting := f.waiting + [packet.(isDisposed := true)])
  }

  function EmittedFields(single: bool, f: Fields, e: Event): Fields {
    var next := ScheduledFields(single, f, PacketOf(e));
    if !e.Next? then next.(ending := f.ending.(queued := true))
    else if single then ScheduledFields(single, next, PacketOf(Complete)).(ending := f.ending.(queued := true))
    else next
  }

  function OverFields(f: Fields): Fields {
    f.(jobsOver := f.jobsOver + 1, job := Idle, running := None,
       stream := f.stream.(replied := f.stream.replied || !f.cancelled))
  }

  function StoppedFields(f: Fields, byClose: bool): Fields {
    if f.stream.stopped then f
    else f.(stream := f.stream.(stopped := true, cancelledByClose := byClose),
            ending := f.ending.(ended := true))
  }

  function StartedFields(f: Fields): Fields
    requires f.waiting != []
  {
    var next := f.(waiting := f.waiting[1..]);
    if f.failed || f.stream.stopped then OverFields(next)
    else next.(job := Publishing, running := Some(f.waiting[0]))
  }

  function PublishedFields(single: bool, f: Fields, result: PublishResult): Fields {
    if result.Sent? then OverFields(f)
    else if f.stream.cancelledByClose then OverFields(f.(failed := true, cancelled := true))
    else
      var next := StoppedFields(f.(failed := true), false);
      if single then OverFields(next) else next.(job := Replacing, running := None)
  }

  /** How many jobs the chain has: those over, the one that runs, those not started. */
  function ChainLength(f: Fields): nat {
    f.jobsOver + (if f.job.Idle? then 0 else 1) + |f.waiting|
  }

  predicate SameRequest(p: Pipeline, q: Pipeline) {
    q.id == p.id && q.single == p.single
  }

  lemma {:induction false} EmitFields(p: Pipeline, e: Event)
    requires Inv(p) && Enabled(p, Emit(e))
    ensures Inv(Apply(p, Emit(e))) && SameRequest(p, Apply(p, Emit(e)))
    ensures FieldsOf(Apply(p, Emit(e))) == EmittedFields(p.single, FieldsOf(p), e)
  {
    StepInv(p, Emit(e));
    DropMore(p.source.scheduled, p.chain.started, [PacketOf(e).(isDisposed := true)]);
    hide SourceInv;
    hide WireInv;
    hide Schedule;
    hide PacketOf;
  }

  lemma {:induction false} DropMore(packets: seq<Packet>, k: nat, more: seq<Packet>)
    requires k <= |packets|
    ensures (packets + more)[k..] == packets[k..] + more
  {
  }

  lemma {:induction false} DropOne(packets: seq<Packet>, k: nat)
    requires k < |packets|
    ensures packets[k..] != [] && packets[k..][0] == packets[k] && packets[k..][1..] == packets[k + 1..]
  {
  }

  lemma {:induction false} FlushFields(p: Pipeline)
    requires Inv(p) && Enabled(p, Flush)
    ensures Inv(Apply(p, Flush)) && SameRequest(p, Apply(p, Flush))
    ensures FieldsOf(Apply(p, Flush))
      == FieldsOf(p).(batch := [], waiting := FieldsOf(p).waiting + FieldsOf(p).batch)
  {
    StepInv(p, Flush);
    DropMore(p.source.scheduled, p.chain.started, p.source.batch);
    hide SourceInv;
    hide WireInv;
    hide EndInv;
  }

  lemma {:induction false} StartJobFields(p: Pipeline)
    requires Inv(p) && Enabled(p, StartJob)
    ensures Inv(Apply(p, StartJob)) && SameRequest(p, Apply(p, StartJob))
    ensures FieldsOf(p).waiting != []
    ensures FieldsOf(Apply(p, StartJob)) == StartedFields(FieldsOf(p))
  {
    hide SourceInv;
    hide WireInv;
    hide EndInv;
    StepInv(p, StartJob);
    DropOne(p.source.scheduled, p.chain.started);
    var q := Apply(p, StartJob);
    assert q.source == p.source && q.chain.started == p.chain.started + 1;
    hide ChainInv;
  }

  lemma {:induction false} PublishFields(p: Pipeline, result: PublishResult)
    requires Inv(p) && Enabled(p, PublishSettles(result))
    ensures Inv(Apply(p, PublishSettles(result))) && SameRequest(p, Apply(p, PublishSettles(result)))
    ensures FieldsOf(Apply(p, PublishSettles(result))) == PublishedFields(p.single, FieldsOf(p), result)
  {
    hide SourceInv;
    hide WireInv;
    hide EndInv;
    hide Delivered;
    StepInv(p, PublishSettles(result));
  }

  lemma {:induction false} ErrorFields(p: Pipeline, result: PublishResult)
    requires Inv(p) && Enabled(p, ErrorSettles(result))
    ensures Inv(Apply(p, ErrorSettles(result))) && SameRequest(p, Apply(p, ErrorSettles(result)))
    ensures FieldsOf(Apply(p, ErrorSettles(result))) == OverFields(FieldsOf(p))
  {
    hide SourceInv;
    hide WireInv;
    hide ToMessage;
    StepInv(p, ErrorSettles(result));
  }

  lemma {:induction false} CutFields(p: Pipeline)
    requires Inv(p) && Enabled(p, Cut)
    ensures Inv(Apply(p, Cut)) && SameRequest(p, Apply(p, Cut))
    ensures FieldsOf(Apply(p, Cut)) == StoppedFields(FieldsOf(p), true)
  {
    hide SourceInv;
    hide WireInv;
    hide EndInv;
    StepInv(p, Cut);
  }

  lemma {:induction false} EndingFields(p: Pipeline, step: Step)
    requires Inv(p) && Enabled(p, step) && (step.EndTick? || step.AwaitEnded? || step.Return?)
    ensures Inv(Apply(p, step)) && SameRequest(p, Apply(p, step))
    ensures
      var f, q := FieldsOf(p), FieldsOf(Apply(p, step));
      && (step.EndTick? ==> q == f.(ending := f.ending.(ended := true)))
      && (step.AwaitEnded? ==> q == f.(ending := f.ending.(awaited := Some(ChainLength(f)))))
      && (step.Return? ==> q == f.(ending := f.ending.(outcome :=
            Some(if f.stream.cancelledByClose && !f.stream.replied then CancelledByClose else Resolved))))
  {
    hide SourceInv;
    hide WireInv;
    hide EndInv;
    StepInv(p, step);
  }

  /** One call of `sendReply()`, from its subscription on. */
  class SendReply {
    const correlationId: string
    const singleReply: bool
    const stream: FollowedObservable
    /** The replies of the current tick; empty when no flush is queued. */
    var batch: seq<Packet>
    var replied: bool
    /** The promise chain: the jobs not started, and the one that runs. */
    var waiting: seq<Packet>
    var running: Option<Packet>
    var job: Job
    var jobsOver: nat
    var failed: bool
    var cancelled: bool
    var endQueued: bool
    var ended: bool
    /** The length of the chain `finished` awaits, once `ended` resolved. */
    var awaited: Option<nat>
    var outcome: Option<ReplyOutcome>
    /** The state of the run so far. */
    ghost var model: Pipeline

    /** What the fields hold. */
    ghost function Snapshot(): Fields
      reads this, stream
    {
      Fields(batch, replied, waiting, running, job, jobsOver, failed, cancelled,
             Stream(stream.stopped, stream.cancelledByClose, stream.replied),
             Ending(endQueued, ended, awaited, outcome))
    }

    ghost predicate Valid()
      reads this, stream
    {
      && Inv(model)
      && model.id == correlationId && model.single == singleReply
      && Snapshot() == FieldsOf(model)
      && (stream.stopped ==> !stream.subscribed)
    }

    constructor (id: string, single: bool)
      ensures Valid() && fresh(stream)
      ensures model == Start(id, single)
    {
      correlationId, singleReply := id, single;
      stream := new FollowedObservable();
      batch, replied, waiting, running, job, jobsOver := [], false, [], None, Idle, 0;
      failed, cancelled, endQueued, ended, awaited, outcome := false, false, false, false, None, None;
      model := Start(id, single);
      new;
      StartInv(id, single);
      var _ := stream.Start(None);
    }

    /** `respond()`: the packet joins the chain. */
    method Respond(packet: Packet)
      modifies this`waiting
      ensures waiting == old(waiting) + [packet]
    {
      waiting := waiting + [packet];
    }

    /** `schedule()`. */
    method Schedule(packet: Packet)
      modifies this`batch, this`replied, this`waiting
      ensures Snapshot() == ScheduledFields(singleReply, old(Snapshot()), packet)
    {
      if singleReply {
        if !replied {
          replied := true;
          Respond(packet.(isDisposed := true));
        }
        return;
      }
      if batch != [] {
        var last := batch[|batch| - 1];
        if packet.isDisposed && packet.err.None? && !IsTruthy(Read(last.err)) && !last.isDisposed {
          batch := batch[|batch| - 1 := last.(isDisposed := true)];
        } else {
          batch := batch + [packet];
        }
        return;
      }
      batch := [packet];
    }

    /** The observer's `next`; for a 1.1.0 client `take(1)` completes the response after it. */
    method Next(value: Js)
      requires Valid() && Enabled(model, Step.Emit(Event.Next(value)))
      modifies this
      ensures Valid() && model == Apply(old(model), Step.Emit(Event.Next(value)))
    {
      hide Inv;
      hide Apply;
      hide FieldsOf;
      hide ScheduledFields;
      hide Enabled;
      EmitFields(model, Event.Next(value));
      Schedule(Packet(None, Some(value), false));
      if singleReply {
        End(Packet(None, None, true));
      }
      model := Apply(model, Step.Emit(Event.Next(value)));
    }

    /** The observer's `error`. */
    method Error(err: Js)
      requires Valid() && Enabled(model, Step.Emit(Event.Error(err)))
      modifies this
      ensures Valid() && model == Apply(old(model), Step.Emit(Event.Error(err)))
    {
      hide Inv;
      hide Apply;
      hide FieldsOf;
      hide ScheduledFields;
      hide Enabled;
      EmitFields(model, Event.Error(err));
      End(Packet(Some(ToReplyError(err)), None, true));
      model := Apply(model, Step.Emit(Event.Error(err)));
    }

    /** The observer's `complete`. */
    method Complete()
      requires Valid() && Enabled(model, Step.Emit(Event.Complete))
      modifies this
      ensures Valid() && model == Apply(old(model), Step.Emit(Event.Complete))
    {
      hide Inv;
      hide Apply;
      hide FieldsOf;
      hide ScheduledFields;
      hide Enabled;
      EmitFields(model, Event.Complete);
      End(Packet(None, None, true));
      model := Apply(model, Step.Emit(Event.Complete));
    }

    /** Schedules the last packet and calls `end()`. */
    method End(packet: Packet)
      modifies this`batch, this`replied, this`waiting, this`endQueued
      ensures
        var next := ScheduledFields(singleReply, old(Snapshot()), packet);
        Snapshot() == next.(ending := next.ending.(queued := true))
    {
      Schedule(packet);
      hide ScheduledFields;
      endQueued := true;
    }

    /** The tick is over: its replies join the chain one after another. */
    method Flush()
      requires Valid() && Enabled(model, Step.Flush)
      modifies this
      ensures Valid() && model == Apply(old(model), Step.Flush)
    {
      hide Inv;
      hide Apply;
      hide FieldsOf;
      hide Enabled;
      FlushFields(model);
      var replies := batch;
      batch := [];
      RespondAll(replies);
      model := Apply(model, Step.Flush);
    }

    method RespondAll(replies: seq<Packet>)
      modifies this`waiting
      ensures waiting == old(waiting) + replies
    {
      for i := 0 to |replies|
        invariant waiting == old(waiting) + replies[..i]
      {
        Respond(replies[i]);
      }
    }

    /** What runs when a job of the chain settles. */
    method JobOver()
      modifies this`job, this`running, this`jobsOver, stream`replied
      ensures Snapshot() == OverFields(old(Snapshot()))
      ensures unchanged(stream`stopped) && unchanged(stream`subscribed) && unchanged(stream`cancelledByClose)
    {
      job, running := Idle, None;
      jobsOver := jobsOver + 1;
      if !cancelled {
        stream.replied := true;
      }
    }

    /** The next job of the chain starts; `publish` is the packet it publishes, if any. */
    method StartJob() returns (publish: Option<Packet>)
      requires Valid() && Enabled(model, Step.StartJob)
      modifies this, stream
      ensures Valid() && model == Apply(old(model), Step.StartJob)
      ensures publish == if old(failed || stream.stopped) then None else Some(old(waiting)[0])
    {
      hide Inv;
      hide Apply;
      hide FieldsOf;
      hide Enabled;
      StartJobFields(model);
      publish := StartNext();
      model := Apply(model, Step.StartJob);
    }

    method StartNext() returns (publish: Option<Packet>)
      requires waiting != []
      modifies this`waiting, this`job, this`running, this`jobsOver, stream`replied
      ensures Snapshot() == StartedFields(old(Snapshot()))
      ensures publish == if old(failed || stream.stopped) then None else Some(old(waiting)[0])
    {
      hide OverFields;
      var packet := waiting[0];
      waiting := waiting[1..];
      if failed || stream.stopped {
        JobOver();
        publish := None;
      } else {
        job, running := Publishing, Some(packet);
        publish := running;
      }
    }

    /** `stop()` with the `onStop` of a response. */
    method StopStream(byClose: bool)
      modifies stream, this`ended
      ensures Snapshot() == StoppedFields(old(Snapshot()), byClose)
      ensures old(stream.stopped) ==> unchanged(stream)
      ensures !old(stream.stopped) ==> !stream.subscribed
    {
      var onStop := stream.Stop(byClose);
      if onStop {
        ended := true;
      }
    }

    /** The publish of the running job resolved or rejected; `replace`: the error reply is sent now. */
    method PublishSettles(result: PublishResult) returns (replace: bool)
      requires Valid() && Enabled(model, Step.PublishSettles(result))
      modifies this, stream
      ensures Valid() && model == Apply(old(model), Step.PublishSettles(result))
      ensures replace <==> !result.Sent? && !old(stream.cancelledByClose) && !singleReply
    {
      hide Inv;
      hide Apply;
      hide FieldsOf;
      hide OverFields;
      hide StoppedFields;
      hide Enabled;
      PublishFields(model, result);
      replace := false;
      if result.Sent? {
        JobOver();
      } else {
        replace := PublishFailed();
      }
      model := Apply(model, Step.PublishSettles(result));
    }

    /** What the chain does with a publish that failed. */
    method PublishFailed() returns (replace: bool)
      modifies this`failed, this`cancelled, this`job, this`running, this`jobsOver, this`ended, stream
      ensures Snapshot() == PublishedFields(singleReply, old(Snapshot()), NotSent)
      ensures old(stream.stopped ==> !stream.subscribed) ==> (stream.stopped ==> !stream.subscribed)
      ensures replace <==> !old(stream.cancelledByClose) && !singleReply
    {
      failed := true;
      replace := false;
      if stream.cancelledByClose {
        cancelled := true;
        JobOver();
        return;
      }
      StopStream(false);
      if singleReply {
        JobOver();
      } else {
        job, running := Replacing, None;
        replace := true;
      }
    }

    /** The error reply was sent, or could not be. */
    method ErrorSettles(result: PublishResult)
      requires Valid() && Enabled(model, Step.ErrorSettles(result))
      modifies this, stream
      ensures Valid() && model == Apply(old(model), Step.ErrorSettles(result))
    {
      hide Inv;
      hide Apply;
      hide FieldsOf;
      hide Enabled;
      ErrorFields(model, result);
      JobOver();
      model := Apply(model, Step.ErrorSettles(result));
    }

    /** `close()` gives up on the response. */
    method Cut()
      requires Valid() && Enabled(model, Step.Cut)
      modifies this, stream
      ensures Valid() && model == Apply(old(model), Step.Cut)
      ensures !stream.subscribed || old(stream.stopped)
    {
      hide Inv;
      hide Apply;
      hide FieldsOf;
      hide Enabled;
      CutFields(model);
      StopStream(true);
      model := Apply(model, Step.Cut);
    }

    /** `endResponse()`, in the tick after the end. */
    method EndTick()
      requires Valid() && Enabled(model, Step.EndTick)
      modifies this
      ensures Valid() && model == Apply(old(model), Step.EndTick)
    {
      hide Inv;
      hide Apply;
      hide FieldsOf;
      hide Enabled;
      EndingFields(model, Step.EndTick);
      ended := true;
      model := Apply(model, Step.EndTick);
    }

    /** How long the chain is now. */
    method LengthNow() returns (length: nat)
      ensures length == ChainLength(Snapshot())
    {
      length := jobsOver + (if job.Idle? then 0 else 1) + |waiting|;
    }

    /** `finished` goes on to await the chain as it is then. */
    method AwaitEnded()
      requires Valid() && Enabled(model, Step.AwaitEnded)
      modifies this
      ensures Valid() && model == Apply(old(model), Step.AwaitEnded)
    {
      hide Inv;
      hide Apply;
      hide FieldsOf;
      hide Enabled;
      hide ChainLength;
      EndingFields(model, Step.AwaitEnded);
      var length := LengthNow();
      awaited := Some(length);
      model := Apply(model, Step.AwaitEnded);
    }

    /** The call itself ends: `first` or `finished` settled. */
    method Return()
      requires Valid() && Enabled(model, Step.Return)
      modifies this
      ensures Valid() && model == Apply(old(model), Step.Return)
      ensures outcome == Some(
        if stream.cancelledByClose && !stream.replied then CancelledByClose else Resolved)
    {
      hide Inv;
      hide Apply;
      hide FieldsOf;
      hide Enabled;
      EndingFields(model, Step.Return);
      if stream.cancelledByClose && !stream.replied {
        outcome := Some(CancelledByClose);
      } else {
        outcome := Some(Resolved);
      }
      model := Apply(model, Step.Return);
    }
  }
}
