/**
 What every step of the pipeline keeps: where messages are and what they look like, how full hands and queues
 are, and what the producers made.
 */
module PipelineInvariant {
  import opened MachineWords
  import opened Wrappers
  import opened Messages
  import opened Pipeline
  import opened PipelineFlow

  /** A thread holds a message exactly while it is sending it; threads that do not exist do nothing. */
  ghost predicate HandsOk(c: Setup, s: State) {
    && (forall t :: |Content(s.at, Hand(t))| == if PcOf(s, t).Sending? then 1 else 0)
    && (forall t :: PcOf(s, t).Sending? ==> PcOf(s, t).tries < Limit(t))
    && (forall t :: !c.Runs(t) ==> PcOf(s, t) == Checking)
  }

  ghost predicate QueuesOk(c: Setup, s: State) {
    forall q :: |Waiting(s, q)| <= PushedTo(s, q) && |Waiting(s, q)| <= c.capacity
  }

  /** A place that exists in this configuration. */
  predicate InRange(c: Setup, place: Place) {
    match place
    case Hand(t) => c.Runs(t)
    case Dropped(t, _) => c.Runs(t) && !t.Strategy?
    case Delivered(k) => k < c.Strategies()
    case Queue(q) =>
      match q
      case FromProducer(p) => p < c.Producers()
      case ToProcessor(r) => r < c.Processors()
      case FromProcessor(r) => r < c.Processors()
      case ToStrategy(k) => k < c.Strategies()
  }

  /** The lookups led here: past a router the target exists, and a bin says whether it did. */
  predicate RoutedTo(c: Setup, place: Place, m: Message) {
    && (Rank(place) <= 6 ==> c.config.ProcessorFor(m.msgType) < c.Processors())
    && (Rank(place) <= 2 ==> c.config.StrategyFor(m.msgType) < c.Strategies())
    && (place.Dropped? ==> (place.why.NoRoute? <==> Target(c, place.t, m).None?))
  }

  /** A message may be here, and from the processor on it carries the processor its type is routed to. */
  predicate MayBeAt(c: Setup, place: Place, m: Message) {
    && InRange(c, place) && OnPath(c, place, m) && RoutedTo(c, place, m)
    && m.producerId < c.Producers() && m.msgType <= 3
    && (if Rank(place) <= 5 then m.processorId == c.config.ProcessorFor(m.msgType) else m == Unstamped(m))
  }

  ghost predicate PlacesOk(c: Setup, s: State) {
    forall place, i :: 0 <= i < |Content(s.at, place)| ==> MayBeAt(c, place, Content(s.at, place)[i])
  }

  /** A producer numbers its messages 1, 2, 3, ... across all types. */
  predicate MadeBy(p: nat, i: nat, m: Message) {
    m.producerId == p && m.sequenceNumber == i + 1 && m.msgType <= 3 && m == Unstamped(m) && i + 2 < TWO_TO_THE_64
  }

  ghost predicate GeneratedOk(c: Setup, s: State) {
    && (forall p, i :: 0 <= i < |GeneratedBy(s, p)| ==> MadeBy(p, i, GeneratedBy(s, p)[i]))
    && (forall p :: p >= c.Producers() ==> GeneratedBy(s, p) == [])
  }

  ghost predicate Shape(c: Setup, s: State) {
    HandsOk(c, s) && QueuesOk(c, s) && PlacesOk(c, s) && GeneratedOk(c, s)
  }

  lemma InitialShape(c: Setup)
    ensures Shape(c, INITIAL)
  {
  }

  // ----- Every effect is a proper move -----

  lemma TakeIsProper(c: Setup, s: State, step: Step)
    requires Shape(c, s) && Enabled(c, s, step) && step.Take?
    ensures Proper(c, s.at, EffectOf(c, s, step)) && MayBeAt(c, Hand(step.t), EffectOf(c, s, step).m)
  {
    var q := Input(step.t, PcOf(s, step.t).i);
    var head := Waiting(s, q)[0];
    assert MayBeAt(c, Queue(q), head);
    var m := Stamp(step.t, head, step.now);
    assert KeyOf(m) == KeyOf(head);
    assert Rank(Queue(q)) == Rank(Hand(step.t)) + 1;
  }

  lemma SendIsProper(c: Setup, s: State, step: Step)
    requires Shape(c, s) && Enabled(c, s, step) && (step.Push? || step.Deliver? || step.Reject? || step.Refuse?)
    ensures Proper(c, s.at, EffectOf(c, s, step))
    ensures EffectOf(c, s, step).Shift? ==> MayBeAt(c, EffectOf(c, s, step).to, EffectOf(c, s, step).m)
  {
    var t := Mover(c, step);
    var m := Content(s.at, Hand(t))[0];
    assert MayBeAt(c, Hand(t), m);
    assert |Content(s.at, Hand(t))| == 1;
  }

  lemma EffectIsProper(c: Setup, s: State, step: Step)
    requires Shape(c, s) && Enabled(c, s, step)
    ensures Proper(c, s.at, EffectOf(c, s, step))
    ensures EffectOf(c, s, step).Shift? ==> MayBeAt(c, EffectOf(c, s, step).to, EffectOf(c, s, step).m)
  {
    match step
    case Take(_, _, _) => TakeIsProper(c, s, step);
    case Push(_, _) => SendIsProper(c, s, step);
    case Deliver(_) => SendIsProper(c, s, step);
    case Reject(_) => SendIsProper(c, s, step);
    case Refuse(_, _) => SendIsProper(c, s, step);
    case _ =>
  }

  // ----- Preservation -----

  lemma StepHands(c: Setup, s: State, step: Step)
    requires Shape(c, s) && Enabled(c, s, step)
    ensures HandsOk(c, Apply(c, s, step))
  {
    var s' := Apply(c, s, step);
    var mover := Mover(c, step);
    EffectIsProper(c, s, step);
    StopOrderRuns(c, step);
    MoverHand(c, s, step);
    forall t | t != mover ensures PcOf(s', t) == PcOf(s, t) && Content(s'.at, Hand(t)) == Content(s.at, Hand(t)) {
      OtherHands(c, s, step, t);
    }
  }

  lemma MoverHand(c: Setup, s: State, step: Step)
    requires HandsOk(c, s) && Enabled(c, s, step)
    ensures var (s', t) := (Apply(c, s, step), Mover(c, step));
            && |Content(s'.at, Hand(t))| == (if PcOf(s', t).Sending? then 1 else 0)
            && (PcOf(s', t).Sending? ==> PcOf(s', t).tries < Limit(t))
  {
    var t := Mover(c, step);
    assert |Content(s.at, Hand(t))| == if PcOf(s, t).Sending? then 1 else 0;
  }

  lemma OtherHands(c: Setup, s: State, step: Step, t: Thread)
    requires Enabled(c, s, step) && t != Mover(c, step)
    ensures PcOf(Apply(c, s, step), t) == PcOf(s, t)
    ensures Content(Apply(c, s, step).at, Hand(t)) == Content(s.at, Hand(t))
  {
  }

  lemma StopOrderRuns(c: Setup, step: Step)
    ensures step.Stop? && step.i < ThreadCount(c) ==> c.Runs(StopOrder(c, step.i))
  {
  }

  lemma StepQueues(c: Setup, s: State, step: Step)
    requires Shape(c, s) && Enabled(c, s, step)
    ensures QueuesOk(c, Apply(c, s, step))
  {
    var s' := Apply(c, s, step);
    EffectIsProper(c, s, step);
    forall q ensures |Waiting(s', q)| <= PushedTo(s', q) && |Waiting(s', q)| <= c.capacity {
      assert |Waiting(s, q)| <= PushedTo(s, q) && |Waiting(s, q)| <= c.capacity;
    }
  }

  lemma StepPlaces(c: Setup, s: State, step: Step)
    requires Shape(c, s) && Enabled(c, s, step)
    ensures PlacesOk(c, Apply(c, s, step))
  {
    var s' := Apply(c, s, step);
    var e := EffectOf(c, s, step);
    EffectIsProper(c, s, step);
    forall place, i | 0 <= i < |Content(s'.at, place)| ensures MayBeAt(c, place, Content(s'.at, place)[i]) {
      ContentAfter(c, s.at, e, place, i);
      if e.Arrive? {
        assert MayBeAt(c, Hand(Producer(e.m.producerId)), e.m);
      }
    }
  }

  /** Whatever is at a place after an effect was there before, or is the message that moved. */
  lemma ContentAfter(c: Setup, at: map<Place, seq<Message>>, e: Effect, place: Place, i: nat)
    requires Proper(c, at, e) && i < |Content(Perform(at, e), place)|
    ensures var m := Content(Perform(at, e), place)[i];
            || (exists j :: 0 <= j < |Content(at, place)| && Content(at, place)[j] == m)
            || (e.Shift? && place == e.to && m == e.m)
            || (e.Arrive? && place == Hand(Producer(e.m.producerId)) && m == e.m)
  {
    var before, after := Content(at, place), Content(Perform(at, e), place);
    if e.Shift? && place == e.from {
      assert after[i] == before[i + 1];
    } else if i < |before| {
      assert after[i] == before[i];
    }
  }

  lemma StepGenerated(c: Setup, s: State, step: Step)
    requires Shape(c, s) && Enabled(c, s, step)
    ensures GeneratedOk(c, Apply(c, s, step))
  {
    var s' := Apply(c, s, step);
    if step.Generate? {
      var was := GeneratedBy(s, step.p);
      var m := Fresh(step.msgType, step.p, |was| + 1, step.now);
      assert MadeBy(step.p, |was|, m);
      forall p, i | 0 <= i < |GeneratedBy(s', p)| ensures MadeBy(p, i, GeneratedBy(s', p)[i]) {
        assert i < |GeneratedBy(s, p)| ==> MadeBy(p, i, GeneratedBy(s, p)[i]);
      }
      assert forall p :: p != step.p ==> GeneratedBy(s', p) == GeneratedBy(s, p);
    } else {
      assert s'.generated == s.generated;
      assert forall p :: GeneratedBy(s', p) == GeneratedBy(s, p);
    }
  }

  lemma StepShape(c: Setup, s: State, step: Step)
    requires Shape(c, s) && Enabled(c, s, step)
    ensures Shape(c, Apply(c, s, step))
  {
    StepHands(c, s, step);
    StepQueues(c, s, step);
    StepPlaces(c, s, step);
    StepGenerated(c, s, step);
  }

  lemma {:induction false} RunShape(c: Setup, s: State, steps: seq<Step>, s': State)
    requires Shape(c, s) && Execute(c, s, steps) == Some(s')
    ensures Shape(c, s')
    decreases |steps|
  {
    if steps != [] {
      StepShape(c, s, steps[0]);
      RunShape(c, Apply(c, s, steps[0]), steps[1..], s');
    }
  }

  lemma ReachableShape(c: Setup, s: State)
    requires Reachable(c, s)
    ensures Shape(c, s)
  {
    var steps :| Execute(c, INITIAL, steps) == Some(s);
    InitialShape(c);
    RunShape(c, INITIAL, steps, s);
  }
}
