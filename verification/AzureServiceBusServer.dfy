/** The sets and the generation that the server's handlers and its `close()` share. */
module AzureServiceBusServer {
  import opened Values
  import opened ServerShutdown
  import opened ReplyStream
  import Guarantees = ServerGuarantees
  import Pipe = ReplyPipeline

  /**
   * A followed stream with what its `onStop` closes over: for a response the call
   * of `sendReply()`, whose `stream` it is.
   */
  datatype Followed = OfResponse(call: SendReply) | OfResult(stream: FollowedObservable)

  /** The objects a stream consists of. */
  function Parts(f: Followed): set<object> {
    match f
    case OfResponse(call) => {call, call.stream}
    case OfResult(stream) => {stream}
  }

  /** The objects are in the state of the run. */
  ghost predicate Matches(f: Followed, x: Stream)
    reads Parts(f)
  {
    match f
    case OfResponse(call) => x.Response? && call.Valid() && call.model == x.pipeline
    case OfResult(stream) => x.Result? && stream.stopped == x.stopped && (stream.stopped ==> !stream.subscribed)
  }

  class Server {
    var generation: nat
    /** The messages being handled, by number. */
    var inFlight: set<nat>
    /** The streams being followed, by number. */
    var following: map<nat, Followed>
    /** Every stream subscribed so far, followed or not. */
    ghost var streams: seq<Followed>
    /** The objects of those streams. */
    ghost var objects: set<object>
    /** The state of the run so far. */
    ghost var model: ServerShutdown.Server

    /** The fields are in the state of the model; no two streams share an object. */
    ghost predicate Ties()
      reads this
    {
      && generation == model.generation && inFlight == model.inFlight && following.Keys == model.following
      && |streams| == |model.streams|
      && (forall k :: k in following ==> k < |streams| && following[k] == streams[k])
      && (forall j, k :: 0 <= j < k < |streams| ==> Parts(streams[j]) !! Parts(streams[k]))
      && (forall k :: 0 <= k < |streams| ==> Parts(streams[k]) <= objects) && this !in objects
    }

    ghost predicate Valid()
      reads this, objects
    {
      && Ties() && Inv(model)
      && forall k :: 0 <= k < |streams| ==> Matches(streams[k], model.streams[k])
    }

    constructor ()
      ensures Valid() && model == NewServer()
    {
      generation, inFlight, following := 0, {}, map[];
      streams, objects := [], {};
      model := NewServer();
    }

    /** `track()` of a new message; a request's handling reads the generation at once. */
    method Deliver(request: bool, message: nat) returns (read: Option<nat>)
      requires Valid() && message == |model.works|
      modifies this`inFlight, this`model
      ensures Valid() && model == Apply(old(model), Step.Deliver(request)) && unchanged(this`following)
      ensures read == model.works[message].generation
    {
      Guarantees.ArrivalKeeps(model, Step.Deliver(request));
      hide Inv;
      hide Matches;
      inFlight := inFlight + {message};
      read := if request then Some(generation) else None;
      model := Apply(model, Step.Deliver(request));
    }

    /** `track()` of a request that is rejected: it is never handled. */
    method Reject(message: nat)
      requires Valid() && message == |model.works|
      modifies this`inFlight, this`model
      ensures Valid() && model == Apply(old(model), Step.Reject) && unchanged(this`following)
    {
      Guarantees.ArrivalKeeps(model, Step.Reject);
      hide Inv;
      hide Matches;
      inFlight := inFlight + {message};
      model := Apply(model, Step.Reject);
    }

    /** `handleEvent()` reads the generation. */
    method Begin(message: nat) returns (read: nat)
      requires Valid() && Enabled(model, Step.Begin(message))
      modifies this`model
      ensures Valid() && model == Apply(old(model), Step.Begin(message))
      ensures model.works[message].generation == Some(read)
    {
      Guarantees.BeginKeeps(model, message);
      hide Inv;
      hide Matches;
      read := generation;
      model := Apply(model, Step.Begin(message));
    }

    /**
     * The handler of `message`, which read `read`, returned an Observable. It is
     * subscribed and followed, as number `next`, unless a `close()` gave up since.
     */
    method ReturnsObservable(message: nat, read: nat, next: nat, request: bool, correlationId: string, single: bool)
      returns (stream: Option<Followed>)
      requires Valid() && Enabled(model, Step.ReturnsObservable(message, correlationId, single))
      requires model.works[message].generation == Some(read) && model.works[message].request == request
      requires next == |model.streams|
      modifies this`following, this`streams, this`objects, this`model
      ensures Valid() && model == Apply(old(model), Step.ReturnsObservable(message, correlationId, single))
      ensures stream.Some? <==> read == old(model.generation)
      ensures stream.None? ==> unchanged(this`following)
      ensures stream.Some? ==> fresh(Parts(stream.value)) && following == old(following)[next := stream.value]
    {
      Guarantees.SubscribeKeeps(model, message, correlationId, single);
      KeysBelow(model);
      SubscribeAdds(model, message, correlationId, single);
      ghost var after := Apply(model, Step.ReturnsObservable(message, correlationId, single));
      hide Inv;
      hide Matches;
      hide Apply;
      hide ServerShutdown.Subscribe;
      stream := None;
      if read == generation {
        var followed := Subscribe(request, correlationId, single, after.streams[next]);
        AddStream(next, followed, after);
        stream := Some(followed);
      } else {
        model := after;
      }
    }

    /** The stream is followed from now on, as number `next`. */
    method AddStream(next: nat, followed: Followed, ghost after: ServerShutdown.Server)
      requires Ties() && forall k :: 0 <= k < |streams| ==> Matches(streams[k], model.streams[k])
      requires next == |model.streams| && (forall k :: k in following ==> k < next)
      requires Parts(followed) !! objects && this !in Parts(followed)
      requires after.generation == model.generation && after.inFlight == model.inFlight
      requires after.following == model.following + {next} && |after.streams| == next + 1
      requires after.streams[..next] == model.streams && Matches(followed, after.streams[next])
      modifies this`following, this`streams, this`objects, this`model
      ensures Ties() && model == after && following == old(following)[next := followed]
      ensures streams == old(streams) + [followed]
      ensures objects == old(objects) + Parts(followed)
      ensures forall k :: 0 <= k < |streams| ==> Matches(streams[k], model.streams[k])
    {
      hide Matches;
      following := following[next := followed];
      streams, objects := streams + [followed], objects + Parts(followed);
      model := after;
      assert forall k :: 0 <= k < next ==> after.streams[k] == after.streams[..next][k];
    }

    /** What `sendReply()` or `followToEnd()` subscribes. */
    method Subscribe(request: bool, correlationId: string, single: bool, ghost x: Stream) returns (followed: Followed)
      requires x == if request then Response(x.work, x.generation, Pipe.Start(correlationId, single))
                    else Result(x.work, x.generation, None, false)
      ensures fresh(Parts(followed)) && Matches(followed, x)
    {
      if request {
        var call := new SendReply(correlationId, single);
        followed := OfResponse(call);
      } else {
        var observable := new FollowedObservable();
        var _ := observable.Start(None);
        followed := OfResult(observable);
      }
    }

    /** A callback of a response, or a stretch of its promise chain, runs. */
    method ResponseMoves(k: nat, call: SendReply, step: Pipe.Step)
      requires Valid() && Enabled(model, ResponseStep(k, step)) && streams[k] == OfResponse(call)
      modifies this`following, this`model, call, call.stream
      ensures Valid() && model == Apply(old(model), ResponseStep(k, step))
      ensures following == if Over(model.streams[k]) then old(following) - {k} else old(following)
    {
      Guarantees.StreamStepKeeps(model, ResponseStep(k, step));
      ghost var x := model.streams[k].(pipeline := Pipe.Apply(model.streams[k].pipeline, step));
      ghost var after := PutStream(model, k, x);
      assert Inv(after) && after == Apply(model, ResponseStep(k, step));
      hide *;
      var over := MoveOne(k, call, step);
      StreamOver(k, over, x);
    }

    /** The objects of one response move; no other stream is touched. */
    method MoveOne(k: nat, call: SendReply, step: Pipe.Step) returns (over: bool)
      requires Ties() && forall j :: 0 <= j < |streams| ==> Matches(streams[j], model.streams[j])
      requires k < |streams| && streams[k] == OfResponse(call)
      requires Enabled(model, ResponseStep(k, step))
      modifies call, call.stream
      ensures
        var x := model.streams[k].(pipeline := Pipe.Apply(model.streams[k].pipeline, step));
        && over == Over(x)
        && forall j :: 0 <= j < |streams| ==> Matches(streams[j], if j == k then x else model.streams[j])
    {
      hide Matches;
      hide Over;
      hide Pipe.Apply;
      hide Pipe.Enabled;
      over := RunResponse(call, step, model.streams[k]);
    }

    /** What `watch()` does once its promise settles, if it has. */
    method StreamOver(k: nat, over: bool, ghost x: Stream)
      requires Ties() && k < |streams| && over == Over(x)
      requires forall j :: 0 <= j < |streams| ==> Matches(streams[j], if j == k then x else model.streams[j])
      requires Inv(PutStream(model, k, x))
      modifies this`following, this`model
      ensures Valid() && model == PutStream(old(model), k, x)
      ensures following == if over then old(following) - {k} else old(following)
    {
      hide Inv;
      hide Matches;
      hide Over;
      if over {
        following := following - {k};
      }
      model := PutStream(model, k, x);
    }

    /** An event handler's Observable ends: it is forgotten. */
    method ResultEnds(k: nat, ok: bool)
      requires Valid() && Enabled(model, Step.ResultEnds(k, ok))
      modifies this`following, this`model
      ensures Valid() && model == Apply(old(model), Step.ResultEnds(k, ok))
      ensures following == old(following) - {k}
    {
      Guarantees.StreamStepKeeps(model, Step.ResultEnds(k, ok));
      ghost var x := model.streams[k].(ended := Some(ok));
      assert Inv(PutStream(model, k, x)) && Apply(model, Step.ResultEnds(k, ok)) == PutStream(model, k, x);
      assert Ties() && Over(x);
      OthersMatch(k, x);
      hide *;
      StreamOver(k, true, x);
    }

    /** An event's Observable that ends leaves its object, and the others, as they are. */
    lemma {:induction false} OthersMatch(k: nat, x: Stream)
      requires Ties() && forall j :: 0 <= j < |streams| ==> Matches(streams[j], model.streams[j])
      requires k < |streams| && model.streams[k].Result? && x.Result? && x == model.streams[k].(ended := x.ended)
      ensures forall j :: 0 <= j < |streams| ==> Matches(streams[j], if j == k then x else model.streams[j])
    {
      assert Matches(streams[k], model.streams[k]);
    }

    /** The handling of a message settled: it is no longer tracked. */
    method Settled(message: nat)
      requires Valid() && Enabled(model, Step.Settled(message))
      modifies this`inFlight, this`model
      ensures Valid() && model == Apply(old(model), Step.Settled(message)) && unchanged(this`following)
    {
      Guarantees.SettledKeeps(model, message);
      hide Inv;
      hide Matches;
      inFlight := inFlight - {message};
      model := Apply(model, Step.Settled(message));
    }

    /** Whether the loop of `waitForInFlight()` goes on. */
    method Pending() returns (work: bool)
      requires Valid()
      ensures !work <==> model.inFlight == {} && model.following == {}
    {
      work := inFlight != {} || following.Keys != {};
    }

    /** `giveUpOnInFlight()` */
    method GiveUpOnInFlight()
      requires Valid() && Enabled(model, GiveUp)
      modifies this, objects
      ensures Valid() && model == Apply(old(model), GiveUp)
      ensures following == map[] && inFlight == {} && streams == old(streams) && objects == old(objects)
    {
      Guarantees.GiveUpKeeps(model);
      FollowedAreNotOver(model);
      GiveUpFields(model);
      ghost var after := Apply(model, GiveUp);
      assert Ties() && Inv(after);
      hide *;
      StopFollowed();
      ForgetAll(after);
    }

    /** The sets are emptied and the generation moves on, once the streams are stopped. */
    method ForgetAll(ghost after: ServerShutdown.Server)
      requires Ties() && Inv(after) && after.generation == model.generation + 1
      requires after.inFlight == {} && after.following == {} && after.streams == CutAll(model)
      requires forall k :: 0 <= k < |streams| ==>
        Matches(streams[k], if k in following then CutStream(model.streams[k]) else model.streams[k])
      modifies this`generation, this`following, this`inFlight, this`model
      ensures Valid() && model == after && following == map[] && inFlight == {}
    {
      hide Inv;
      hide Matches;
      hide CutStream;
      generation := generation + 1;
      following := map[];
      inFlight := {};
      model := after;
    }

    /** Stops each of the followed streams. */
    method StopFollowed()
      requires Ties()
      requires forall k :: 0 <= k < |streams| ==> Matches(streams[k], model.streams[k])
      requires forall k :: k in following ==> !Over(model.streams[k])
      modifies objects
      ensures forall k :: 0 <= k < |streams| ==>
        Matches(streams[k], if k in following then CutStream(model.streams[k]) else model.streams[k])
    {
      hide Matches;
      hide CutStream;
      hide Over;
      var rest := following.Keys;
      while rest != {}
        invariant rest <= following.Keys && unchanged(this)
        invariant forall k :: 0 <= k < |streams| ==>
          Matches(streams[k], if k in following.Keys - rest then CutStream(model.streams[k]) else model.streams[k])
        decreases rest
      {
        var k :| k in rest;
        CutOne(following[k], model.streams[k]);
        rest := rest - {k};
      }
    }
  }

  lemma {:induction false} SubscribeAdds(s: ServerShutdown.Server, w: nat, correlationId: string, single: bool)
    requires w < |s.works|
    ensures
      var t := ServerShutdown.Subscribe(s, w, correlationId, single);
      && t.generation == s.generation && t.inFlight == s.inFlight
      && (if s.works[w].generation != Some(s.generation) then t.streams == s.streams && t.following == s.following
          else
            && t.following == s.following + {|s.streams|} && |t.streams| == |s.streams| + 1
            && t.streams[..|s.streams|] == s.streams
            && t.streams[|s.streams|] == if s.works[w].request
                                         then Response(w, s.generation, Pipe.Start(correlationId, single))
                                         else Result(w, s.generation, None, false))
  {
    hide Pipe.Start;
  }

  lemma {:induction false} KeysBelow(s: ServerShutdown.Server)
    requires Inv(s)
    ensures forall k :: k in s.following ==> k < |s.streams|
  {
  }

  lemma {:induction false} GiveUpFields(s: ServerShutdown.Server)
    requires Enabled(s, GiveUp)
    ensures
      var t := Apply(s, GiveUp);
      t.streams == CutAll(s) && t.generation == s.generation + 1 && t.inFlight == {} && t.following == {}
  {
    hide CutAll;
  }

  lemma {:induction false} FollowedAreNotOver(s: ServerShutdown.Server)
    requires Inv(s)
    ensures forall k :: k in s.following ==> k < |s.streams| && !Over(s.streams[k])
  {
    forall k | k in s.following ensures k < |s.streams| && !Over(s.streams[k]) { assert StreamOk(s, k); }
  }

  /** `stop(true)`, with what the stream's `onStop` does. */
  method CutOne(f: Followed, ghost x: Stream)
    requires Matches(f, x) && !Over(x)
    modifies Parts(f)
    ensures Matches(f, CutStream(x))
  {
    match f {
      case OfResponse(call) => call.Cut();
      case OfResult(stream) => var _ := stream.Stop(true);
    }
    hide Pipe.Inv;
  }

  /** One step of a response, on its objects; `over`: whether what `watch()` awaits has settled. */
  method RunResponse(call: SendReply, step: Pipe.Step, ghost x: Stream) returns (over: bool)
    requires x.Response? && Matches(OfResponse(call), x) && Pipe.Enabled(x.pipeline, step) && !step.Cut?
    modifies call, call.stream
    ensures Matches(OfResponse(call), x.(pipeline := Pipe.Apply(x.pipeline, step)))
    ensures over == Over(x.(pipeline := Pipe.Apply(x.pipeline, step)))
  {
    match step {
      case Emit(event) => match event {
        case Next(value) => call.Next(value);
        case Error(error) => call.Error(error);
        case Complete => call.Complete();
      }
      case Flush => call.Flush();
      case StartJob => var _ := call.StartJob();
      case PublishSettles(result) => var _ := call.PublishSettles(result);
      case ErrorSettles(result) => call.ErrorSettles(result);
      case EndTick => call.EndTick();
      case AwaitEnded => call.AwaitEnded();
      case Return => call.Return();
    }
    hide Pipe.Inv;
    hide Pipe.Apply;
    over := call.awaited.Some? && call.jobsOver >= call.awaited.value;
  }
}
