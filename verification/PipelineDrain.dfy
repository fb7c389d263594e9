/**
 Once the producers make no more messages, the work left is bounded, whatever the schedule.
 */
module PipelineDrain {
  import opened Wrappers
  import opened Messages
  import opened Sums
  import opened Pipeline
  import opened PipelineFlow
  import opened PipelineInvariant
  import opened PipelineReport
  import opened PipelineDelivery

  // ----- The work left -----

  /** What a thread may still do with the message in its hand, or owes after it. */
  function Slack(s: State, t: Thread): nat {
    match PcOf(s, t)
    case Sending(_, tries) => if tries < Limit(t) then Limit(t) - tries else 0
    case Counting(_, _) => 1
    case _ => 0
  }

  ghost function AllSlack(c: Setup, s: State): nat {
    SumTo(ThreadCount(c), i => Slack(s, StopOrder(c, i)))
  }

  /** The hops left, each with as many failed pushes as may come before it, and what the threads have in hand. */
  ghost function Measure(c: Setup, s: State): nat {
    1002 * Mass(Hops, s.at) + AllSlack(c, s)
  }

  /** The steps that deal with a message, failed pushes and drops included. */
  predicate Works(step: Step) {
    step.Take? || step.Push? || step.Refuse? || step.Reject? || step.Deliver? || step.Count?
  }

  function WorkIn(steps: seq<Step>): nat {
    if steps == [] then 0 else (if Works(steps[0]) then 1 else 0) + WorkIn(steps[1..])
  }

  /** No message is made and no thread stopped. */
  predicate Quiet(steps: seq<Step>) {
    forall i :: 0 <= i < |steps| ==> !steps[i].Generate? && !steps[i].Stop?
  }

  lemma MoverRuns(c: Setup, s: State, step: Step)
    requires Enabled(c, s, step)
    ensures c.Runs(Mover(c, step))
  {
  }

  lemma MoverProgress(c: Setup, s: State, step: Step)
    requires HandsOk(c, s) && Enabled(c, s, step) && !step.Generate? && Proper(c, s.at, EffectOf(c, s, step))
    ensures var (e, t, s') := (EffectOf(c, s, step), Mover(c, step), Apply(c, s, step));
            var before, after := 1002 * Loss(Hops, e) + Slack(s, t), 1002 * Gain(Hops, e) + Slack(s', t);
            if Works(step) then after < before else after == before
  {
  }

  lemma SlackElsewhere(c: Setup, s: State, step: Step, t: Thread)
    requires Enabled(c, s, step) && t != Mover(c, step)
    ensures Slack(Apply(c, s, step), t) == Slack(s, t)
  {
    OtherHands(c, s, step, t);
    hide Apply;
  }

  /** Every step that deals with a message leaves less to do; the others leave as much. */
  lemma StepMeasure(c: Setup, s: State, step: Step)
    requires Shape(c, s) && Enabled(c, s, step) && !step.Generate?
    ensures var s' := Apply(c, s, step);
            if Works(step) then Measure(c, s') < Measure(c, s) else Measure(c, s') == Measure(c, s)
  {
    var s', t := Apply(c, s, step), Mover(c, step);
    EffectIsProper(c, s, step);
    MoverRuns(c, s, step);
    PositionOf(c, t);
    forall i | 0 <= i < ThreadCount(c) && i != StopPosition(c, t)
      ensures Slack(s', StopOrder(c, i)) == Slack(s, StopOrder(c, i))
    {
      OrderPosition(c, i);
      SlackElsewhere(c, s, step, StopOrder(c, i));
    }
    SumReplace(ThreadCount(c), i => Slack(s, StopOrder(c, i)), i => Slack(s', StopOrder(c, i)), StopPosition(c, t));
    MassAfter(c, Hops, s.at, EffectOf(c, s, step));
    MoverProgress(c, s, step);
  }

  /** However the threads are scheduled: what is done without new messages was still to do before. */
  lemma {:induction false} WorkIsBounded(c: Setup, s: State, steps: seq<Step>, s': State)
    requires Shape(c, s) && Execute(c, s, steps) == Some(s')
    requires forall i :: 0 <= i < |steps| ==> !steps[i].Generate?
    ensures WorkIn(steps) + Measure(c, s') <= Measure(c, s)
    decreases |steps|
  {
    if steps != [] {
      StepMeasure(c, s, steps[0]);
      StepShape(c, s, steps[0]);
      forall i | 0 <= i < |steps[1..]| ensures !steps[1..][i].Generate? {
        assert steps[1..][i] == steps[i + 1];
      }
      WorkIsBounded(c, Apply(c, s, steps[0]), steps[1..], s');
    }
  }

  lemma {:induction false} HopsOfPlace(place: Place, ms: seq<Message>)
    ensures PlaceMass(Hops, place, ms) <= 9 * PlaceMass(Plus(InQueue, InHand), place, ms)
  {
    if ms != [] {
      HopsOfPlace(place, ms[1..]);
      assert WeightOf(Plus(InQueue, InHand), place, ms[0]) ==
             WeightOf(InQueue, place, ms[0]) + WeightOf(InHand, place, ms[0]);
    }
  }

  /** The work left is linear in the messages under way. */
  lemma MeasureIsLinear(c: Setup, s: State)
    ensures Measure(c, s) <= 9018 * (Mass(InQueue, s.at) + Mass(InHand, s.at)) + 1000 * ThreadCount(c)
  {
    forall place | place in s.at {
      HopsOfPlace(place, s.at[place]);
    }
    MapSumScaled(Masses(Hops, s.at), Masses(Plus(InQueue, InHand), s.at), 9);
    MassPlus(InQueue, InHand, s.at);
    SumAtMost(ThreadCount(c), i => Slack(s, StopOrder(c, i)), 1000);
  }

  /** Nothing is under way and nothing owed. */
  ghost predicate Drained(s: State) {
    && (forall q :: Waiting(s, q) == [])
    && (forall t :: Content(s.at, Hand(t)) == [] && !PcOf(s, t).Counting?)
  }

  /** No work is left exactly when nothing is under way. */
  lemma NoWorkIsDrained(c: Setup, s: State)
    requires Shape(c, s)
    ensures Measure(c, s) == 0 <==> Drained(s)
  {
    if Drained(s) {
      NoHops(s);
      SumZero(ThreadCount(c), i => Slack(s, StopOrder(c, i)));
    }
    if Measure(c, s) == 0 {
      forall q ensures Waiting(s, q) == [] {
        if Waiting(s, q) != [] {
          HopsAt(s.at, Queue(q));
        }
      }
      forall t ensures Content(s.at, Hand(t)) == [] && !PcOf(s, t).Counting? {
        if Content(s.at, Hand(t)) != [] {
          HopsAt(s.at, Hand(t));
        }
        if PcOf(s, t).Counting? {
          PositionOf(c, t);
          SumHas(ThreadCount(c), i => Slack(s, StopOrder(c, i)), StopPosition(c, t));
        }
      }
    }
  }

  lemma NoHops(s: State)
    requires Drained(s)
    ensures Mass(Hops, s.at) == 0
  {
    forall place ensures Content(s.at, place) == [] || forall m :: WeightOf(Hops, place, m) == 0 {
      assert place.Hand? ==> Content(s.at, Hand(place.t)) == [];
      assert place.Queue? ==> Waiting(s, place.q) == [];
    }
    MassZero(Hops, s.at);
  }

  lemma HopsAt(at: map<Place, seq<Message>>, place: Place)
    requires Content(at, place) != [] && (place.Queue? || place.Hand?)
    ensures Mass(Hops, at) > 0
  {
    MapSumSplit(Masses(Hops, at), place);
    assert PlaceMass(Hops, place, at[place]) >= Rank(place);
  }

  lemma {:induction false} SumHas(n: nat, f: nat -> nat, at: nat)
    requires at < n
    ensures f(at) <= SumTo(n, f)
  {
    if at < n - 1 {
      SumHas(n - 1, f, at);
    }
  }

  // ----- While the stages run -----

  ghost predicate StagesRun(s: State) {
    forall t :: IsStage(t) ==> t !in s.stopped && !PcOf(s, t).Exited?
  }

  predicate IsStage(t: Thread) {
    !t.Producer?
  }

  lemma StagesKeepRunning(c: Setup, s: State, step: Step)
    requires StagesRun(s) && Enabled(c, s, step) && !step.Stop?
    ensures StagesRun(Apply(c, s, step))
  {
    var s' := Apply(c, s, step);
    forall t | IsStage(t) ensures t !in s'.stopped && !PcOf(s', t).Exited? {
      assert t !in s.stopped && !PcOf(s, t).Exited?;
    }
  }
}
