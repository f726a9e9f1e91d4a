/** The two promise chains: the server's `publishing` and a request's `delivering`. */
module ReplyChains {
  import opened Values
  import opened ReplyCodec
  import opened PromiseChain
  import Pipe = ReplyPipeline
  import Demux = ReplyDemux

  // ------------------------------------------------------------- publishing

  /** The links of a response's chain, one per scheduled reply. */
  function ChainOf(p: Pipe.Pipeline): seq<Link> {
    Links(|p.source.scheduled|, p.chain.started, p.chain.settled)
  }

  /** The chain's moves in one step of the response. */
  function ChainSteps(p: Pipe.Pipeline, step: Pipe.Step): seq<Step>
    requires Pipe.Enabled(p, step)
  {
    var q, i := Pipe.Apply(p, step), p.chain.settled;
    match step
    case Emit(_) => Thens(|q.source.scheduled| - |p.source.scheduled|)
    case Flush => Thens(|q.source.scheduled| - |p.source.scheduled|)
    case StartJob => if q.chain.job.Idle? then [Starts(i), Settles(i)] else [Starts(i)]
    case PublishSettles(_) => if q.chain.job.Idle? then [Settles(i)] else []
    case ErrorSettles(_) => [Settles(i)]
    case _ => []
  }

  function Thens(n: int): seq<Step>
    decreases n
  {
    if n <= 0 then [] else [Then] + Thens(n - 1)
  }

  lemma {:induction false} ThensGrow(c: Chain, n: nat)
    requires OneByOne(c)
    ensures Legal(c, Thens(n))
    ensures OneByOne(Exec(c, Thens(n))) && |Exec(c, Thens(n)).links| == |c.links| + n
    ensures Exec(c, Thens(n)).starts == c.starts && Exec(c, Thens(n)).settles == c.settles
    decreases n
  {
    if n > 0 {
      StepOneByOne(c, Then);
      assert Thens(n)[1..] == Thens(n - 1);
      ThensGrow(Apply(c, Then), n - 1);
    }
  }

  /** The state of a chain whose history the counts of `p` sum up. */
  ghost predicate Follows(c: Chain, p: Pipe.Pipeline) {
    OneByOne(c) && c.links == ChainOf(p) && |c.starts| == p.chain.started && |c.settles| == p.chain.settled
  }

  /**
   * A response moves its chain as the links allow: each of its steps is legal
   * for the chain of links, and leaves it as the counts then say.
   */
  lemma {:induction false} PublishingFollowsLinks(p: Pipe.Pipeline, step: Pipe.Step, c: Chain)
    requires Pipe.Inv(p) && Pipe.Enabled(p, step) && Follows(c, p)
    ensures Legal(c, ChainSteps(p, step)) && Follows(Exec(c, ChainSteps(p, step)), Pipe.Apply(p, step))
  {
    hide Pipe.Inv;
    hide Pipe.Apply;
    hide Pipe.Enabled;
    hide Exec;
    hide Legal;
    hide Thens;
    hide OneByOne;
    CountsMove(p, step);
    var q, i := Pipe.Apply(p, step), p.chain.settled;
    match step {
      case Emit(_) => ThensGrow(c, |q.source.scheduled| - |p.source.scheduled|);
      case Flush => ThensGrow(c, |q.source.scheduled| - |p.source.scheduled|);
      case StartJob => StartMoves(p, q, c);
      case PublishSettles(_) => if q.chain.job.Idle? { SettlesOne(c, i); } else { NoMove(c); }
      case ErrorSettles(_) => SettlesOne(c, i);
      case _ => NoMove(c);
    }
    LinksAre(Exec(c, ChainSteps(p, step)));
  }

  lemma {:induction false} NoMove(c: Chain)
    ensures Legal(c, []) && Exec(c, []) == c
  {
  }

  lemma {:induction false} LinksAre(c: Chain)
    requires OneByOne(c)
    ensures c.links == Links(|c.links|, |c.starts|, |c.settles|)
  {
  }

  lemma {:induction false} StartMoves(p: Pipe.Pipeline, q: Pipe.Pipeline, c: Chain)
    requires Follows(c, p) && Pipe.Enabled(p, Pipe.StartJob) && q == Pipe.Apply(p, Pipe.StartJob)
    requires p.chain.started == p.chain.settled < |p.source.scheduled|
    ensures
      var steps := ChainSteps(p, Pipe.StartJob);
      && Legal(c, steps)
      && var e := Exec(c, steps);
      && OneByOne(e) && |e.links| == |c.links| && |e.starts| == p.chain.settled + 1
      && |e.settles| == p.chain.settled + if q.chain.job.Idle? then 1 else 0
  {
    hide Pipe.Apply;
    hide Pipe.Enabled;
    hide OneByOne;
    hide Exec;
    hide Legal;
    if q.chain.job.Idle? { StartsAndSettles(c, p.chain.settled); } else { StartsOne(c, p.chain.settled); }
  }

  lemma {:induction false} StartsOne(c: Chain, i: nat)
    requires OneByOne(c) && i == |c.starts| == |c.settles| < |c.links|
    ensures Legal(c, [Starts(i)])
    ensures
      var e := Exec(c, [Starts(i)]);
      OneByOne(e) && |e.links| == |c.links| && |e.starts| == i + 1 && |e.settles| == i
  {
    StepOneByOne(c, Starts(i));
  }

  lemma {:induction false} SettlesOne(c: Chain, i: nat)
    requires OneByOne(c) && i == |c.settles| == |c.starts| - 1
    ensures Legal(c, [Settles(i)])
    ensures
      var e := Exec(c, [Settles(i)]);
      OneByOne(e) && |e.links| == |c.links| && |e.starts| == i + 1 && |e.settles| == i + 1
  {
    StepOneByOne(c, Settles(i));
  }

  lemma {:induction false} StartsAndSettles(c: Chain, i: nat)
    requires OneByOne(c) && i == |c.starts| == |c.settles| < |c.links|
    ensures Legal(c, [Starts(i), Settles(i)])
    ensures
      var e := Exec(c, [Starts(i), Settles(i)]);
      OneByOne(e) && |e.links| == |c.links| && |e.starts| == i + 1 && |e.settles| == i + 1
  {
    StartsOne(c, i);
    SettlesOne(Exec(c, [Starts(i)]), i);
    assert [Starts(i), Settles(i)][1..] == [Settles(i)];
  }

  /** How a step changes the counts of the chain. */
  lemma {:induction false} CountsMove(p: Pipe.Pipeline, step: Pipe.Step)
    requires Pipe.Inv(p) && Pipe.Enabled(p, step)
    ensures
      var q := Pipe.Apply(p, step);
      && p.chain.settled <= p.chain.started <= |p.source.scheduled| <= |q.source.scheduled|
      && (p.chain.job.Idle? <==> p.chain.started == p.chain.settled)
      && (step.StartJob? ==>
            p.chain.started == p.chain.settled < |p.source.scheduled|
            && q.source == p.source && q.chain.started == p.chain.started + 1
            && q.chain.settled == p.chain.settled + if q.chain.job.Idle? then 1 else 0)
      && (step.PublishSettles? ==>
            q.source == p.source && q.chain.started == p.chain.started == p.chain.settled + 1
            && q.chain.settled == p.chain.settled + if q.chain.job.Idle? then 1 else 0)
      && (step.ErrorSettles? ==>
            q.source == p.source && q.chain.started == p.chain.started == p.chain.settled + 1
            && q.chain.settled == p.chain.settled + 1)
      && (step.Emit? || step.Flush? ==> q.chain == p.chain)
      && (step.Cut? || step.EndTick? || step.AwaitEnded? || step.Return? ==>
            q.source == p.source && q.chain == p.chain)
  {
    hide Pipe.SourceInv;
    hide Pipe.WireInv;
    hide Pipe.EndInv;
    hide Schedule;
    hide PacketOf;
  }

  /**
   * And the other way round: whenever the links let a job start, it is the next
   * one, no other runs, and the response can start it. Its one `job` is no
   * assumption.
   */
  lemma {:induction false} LinksStartNoOther(p: Pipe.Pipeline, c: Chain, i: nat)
    requires Pipe.Inv(p) && Follows(c, p) && Enabled(c, Starts(i))
    ensures i == p.chain.settled && p.chain.job.Idle? && Pipe.Enabled(p, Pipe.StartJob)
  {
    StepOneByOne(c, Starts(i));
    hide Pipe.SourceInv;
    hide Pipe.WireInv;
    hide Pipe.EndInv;
  }

  // ------------------------------------------------------------- delivering

  /** A request's chain: its deliveries may take any time, and tell the caller when they end. */
  datatype Deliveries = Deliveries(
    chain: Chain,
    messages: seq<Message>,
    ends: seq<(nat, Option<Js>)>,   // history: the deliveries that ended, in order
    told: seq<Event>
  )

  datatype DeliveryStep =
    | Reply(message: Message)
    | Delivers(link: nat)
    | Ends(link: nat, outcome: Option<Js>)

  function NoReplies(): Deliveries {
    Deliveries(NoLinks(), [], [], [])
  }

  predicate DeliveryEnabled(d: Deliveries, step: DeliveryStep) {
    match step
    case Reply(_) => true
    case Delivers(i) => Enabled(d.chain, Starts(i))
    case Ends(i, _) => Enabled(d.chain, Settles(i)) && i < |d.messages|
  }

  function DeliveryApply(d: Deliveries, step: DeliveryStep): Deliveries
    requires DeliveryEnabled(d, step)
  {
    match step
    case Reply(m) => d.(chain := Apply(d.chain, Then), messages := d.messages + [m])
    case Delivers(i) => d.(chain := Apply(d.chain, Starts(i)))
    case Ends(i, outcome) =>
      d.(chain := Apply(d.chain, Settles(i)), ends := d.ends + [(i, outcome)],
         told := if Terminated(d.told) then d.told else d.told + Demux.Told(d.messages[i], outcome))
  }

  predicate DeliveryLegal(d: Deliveries, steps: seq<DeliveryStep>)
    decreases |steps|
  {
    steps == [] || (DeliveryEnabled(d, steps[0]) && DeliveryLegal(DeliveryApply(d, steps[0]), steps[1..]))
  }

  function DeliveryExec(d: Deliveries, steps: seq<DeliveryStep>): Deliveries
    requires DeliveryLegal(d, steps)
    decreases |steps|
  {
    if steps == [] then d else DeliveryExec(DeliveryApply(d, steps[0]), steps[1..])
  }

  function Outcomes(ends: seq<(nat, Option<Js>)>): (r: seq<Option<Js>>)
    ensures |r| == |ends| && forall i :: 0 <= i < |r| ==> r[i] == ends[i].1
  {
    seq(|ends|, i requires 0 <= i < |ends| => ends[i].1)
  }

  ghost predicate InOrder(d: Deliveries) {
    && OneByOne(d.chain) && |d.chain.links| == |d.messages|
    && |d.ends| == |d.chain.settles| && (forall i :: 0 <= i < |d.ends| ==> d.ends[i].0 == i)
    && |d.ends| <= |d.messages| && d.told == Demux.CallerSees(d.messages, Outcomes(d.ends))
  }

  lemma {:induction false} MoreReplies(messages: seq<Message>, message: Message, outcomes: seq<Option<Js>>)
    requires |outcomes| <= |messages|
    ensures Demux.CallerSees(messages + [message], outcomes) == Demux.CallerSees(messages, outcomes)
    decreases |outcomes|
  {
    hide Demux.Told;
    if outcomes != [] { MoreReplies(messages, message, outcomes[..|outcomes| - 1]); }
  }

  lemma {:induction false} StepInOrder(d: Deliveries, step: DeliveryStep)
    requires InOrder(d) && DeliveryEnabled(d, step)
    ensures InOrder(DeliveryApply(d, step))
  {
    hide Demux.Told;
    match step {
      case Reply(m) =>
        StepOneByOne(d.chain, Then);
        MoreReplies(d.messages, m, Outcomes(d.ends));
      case Delivers(i) => StepOneByOne(d.chain, Starts(i));
      case Ends(i, outcome) =>
        StepOneByOne(d.chain, Settles(i));
        var outcomes := Outcomes(d.ends + [(i, outcome)]);
        assert outcomes[..|outcomes| - 1] == Outcomes(d.ends);
    }
  }

  lemma {:induction false} RunInOrder(d: Deliveries, steps: seq<DeliveryStep>)
    requires InOrder(d) && DeliveryLegal(d, steps)
    ensures InOrder(DeliveryExec(d, steps))
    decreases |steps|
  {
    hide InOrder;
    if steps != [] {
      StepInOrder(d, steps[0]);
      RunInOrder(DeliveryApply(d, steps[0]), steps[1..]);
    }
  }

  /**
   * However long each deserializer takes, and whatever order they would end in
   * if they ran at once: the deliveries end in the order of the replies, and the
   * caller is told what the replies, in that order, mean.
   */
  lemma {:induction false} DeliveriesKeepOrder(steps: seq<DeliveryStep>)
    requires DeliveryLegal(NoReplies(), steps)
    ensures
      var d := DeliveryExec(NoReplies(), steps);
      && (forall i :: 0 <= i < |d.ends| ==> d.ends[i].0 == i)
      && |d.ends| <= |d.messages| && d.told == Demux.CallerSees(d.messages, Outcomes(d.ends))
  {
    RunInOrder(NoReplies(), steps);
    hide DeliveryExec;
    hide DeliveryLegal;
  }
}
