/**
 * A promise chain as the server and the client build one: each `then()` adds a
 * link to the last promise, and a link's job starts when that promise has
 * settled. Nothing else keeps two jobs from running at once.
 */
module PromiseChain {

  datatype Link = Waiting | Running | Settled

  datatype Chain = Chain(
    links: seq<Link>,
    starts: seq<nat>,    // history: the links whose jobs started, in order
    settles: seq<nat>    // history: the links that settled, in order
  )

  datatype Step = Then | Starts(link: nat) | Settles(link: nat)

  function NoLinks(): Chain {
    Chain([], [], [])
  }

  predicate Enabled(c: Chain, step: Step) {
    match step
    case Then => true
    case Starts(i) => i < |c.links| && c.links[i].Waiting? && (i == 0 || c.links[i - 1].Settled?)
    case Settles(i) => i < |c.links| && c.links[i].Running?
  }

  function Apply(c: Chain, step: Step): Chain
    requires Enabled(c, step)
  {
    match step
    case Then => c.(links := c.links + [Waiting])
    case Starts(i) => c.(links := c.links[i := Running], starts := c.starts + [i])
    case Settles(i) => c.(links := c.links[i := Settled], settles := c.settles + [i])
  }

  predicate Legal(c: Chain, steps: seq<Step>)
    decreases |steps|
  {
    steps == [] || (Enabled(c, steps[0]) && Legal(Apply(c, steps[0]), steps[1..]))
  }

  function Exec(c: Chain, steps: seq<Step>): Chain
    requires Legal(c, steps)
    decreases |steps|
  {
    if steps == [] then c else Exec(Apply(c, steps[0]), steps[1..])
  }

  /** The links of a chain of which `started` jobs have started and `settled` are over. */
  function Links(count: nat, started: nat, settled: nat): (r: seq<Link>)
    ensures |r| == count
    ensures forall i :: 0 <= i < count ==>
      r[i] == if i < settled then Settled else if i < started then Running else Waiting
  {
    seq(count, i requires 0 <= i < count => if i < settled then Settled else if i < started then Running else Waiting)
  }

  predicate Counts(s: seq<nat>) {
    forall i :: 0 <= i < |s| ==> s[i] == i
  }

  /** The jobs start and settle in the order of the links, one after another. */
  predicate OneByOne(c: Chain) {
    && Counts(c.starts) && Counts(c.settles)
    && |c.settles| <= |c.starts| <= |c.settles| + 1 && |c.starts| <= |c.links|
    && c.links == Links(|c.links|, |c.starts|, |c.settles|)
  }

  lemma {:induction false} StepOneByOne(c: Chain, step: Step)
    requires OneByOne(c) && Enabled(c, step)
    ensures OneByOne(Apply(c, step))
    ensures step.Starts? ==> step.link == |c.starts| == |c.settles|
    ensures step.Settles? ==> step.link == |c.settles| == |c.starts| - 1
  {
    var e := Apply(c, step);
    match step {
      case Then =>
        assert e.links == Links(|e.links|, |e.starts|, |e.settles|);
      case Starts(i) =>
        assert i >= |c.starts| && (i > 0 ==> i - 1 < |c.settles|);
        assert e.links == Links(|e.links|, |e.starts|, |e.settles|);
      case Settles(i) =>
        assert |c.settles| <= i < |c.starts|;
        assert e.links == Links(|e.links|, |e.starts|, |e.settles|);
    }
  }

  lemma {:induction false} RunOneByOne(c: Chain, steps: seq<Step>)
    requires OneByOne(c) && Legal(c, steps)
    ensures OneByOne(Exec(c, steps))
    decreases |steps|
  {
    hide OneByOne;
    if steps != [] {
      StepOneByOne(c, steps[0]);
      RunOneByOne(Apply(c, steps[0]), steps[1..]);
    }
  }

  /**
   * In every run of a chain: at most one job runs at a time, and the jobs start
   * and settle in the order in which their links were added.
   */
  lemma {:induction false} OneAtATime(steps: seq<Step>, i: nat, j: nat)
    requires Legal(NoLinks(), steps)
    ensures
      var c := Exec(NoLinks(), steps);
      && Counts(c.starts) && Counts(c.settles)
      && (i < |c.links| && j < |c.links| && c.links[i].Running? && c.links[j].Running? ==> i == j)
  {
    RunOneByOne(NoLinks(), steps);
    hide Exec;
    hide Legal;
  }
}
