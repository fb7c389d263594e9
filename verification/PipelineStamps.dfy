/** The stamps of processed messages: which step put them there, and what the clock said. */
module PipelineStamps {
  import opened Wrappers
  import opened Messages
  import opened Pipeline
  import opened PipelineFlow
  import opened PipelineInvariant
  import opened PipelineDelivery
  import opened PipelineRetries

  /** The step takes the message from its processor's queue and gives it its stamp; nothing else of it changes. */
  predicate Stamps(s: State, step: Step, m: Message) {
    && step.Take? && step.t == Processor(m.processorId) && step.now == m.processingTimestamp
    && var waiting := Waiting(s, ToProcessor(m.processorId));
       waiting != [] && m == waiting[0].(processorId := m.processorId, processingTimestamp := m.processingTimestamp)
  }

  /** A message that is past the queue of its processor was there before the step, or was stamped by it. */
  lemma BeforeOrStamped(c: Setup, s: State, step: Step, place: Place, i: nat) returns (from: Place, k: nat)
    requires Shape(c, s) && Enabled(c, s, step)
    requires Rank(place) <= 5 && i < |Content(Apply(c, s, step).at, place)|
    ensures var m := Content(Apply(c, s, step).at, place)[i];
            Stamps(s, step, m) || (Rank(from) <= 5 && k < |Content(s.at, from)| && Content(s.at, from)[k] == m)
  {
    var e, m := EffectOf(c, s, step), Content(Apply(c, s, step).at, place)[i];
    EffectIsProper(c, s, step);
    PlacesAfter(c, s, step);
    ContentAfter(c, s.at, e, place, i);
    if j: nat :| j < |Content(s.at, place)| && Content(s.at, place)[j] == m {
      from, k := place, j;
    } else if Rank(e.from) <= 5 {
      MovedUnchanged(c, s, step);
      from, k := e.from, 0;
    } else {
      FirstStamp(c, s, step);
      from, k := place, 0;
    }
  }

  /** Past the processor a message moves as it is. */
  lemma MovedUnchanged(c: Setup, s: State, step: Step)
    requires Shape(c, s) && Enabled(c, s, step) && EffectOf(c, s, step).Shift? && Rank(EffectOf(c, s, step).from) <= 5
    ensures var e := EffectOf(c, s, step); Content(s.at, e.from) != [] && Content(s.at, e.from)[0] == e.m
  {
  }

  lemma FirstStamp(c: Setup, s: State, step: Step)
    requires Shape(c, s) && Enabled(c, s, step) && EffectOf(c, s, step).Shift?
    requires Rank(EffectOf(c, s, step).from) > 5 && Rank(EffectOf(c, s, step).to) <= 5
    ensures Stamps(s, step, EffectOf(c, s, step).m)
  {
    EffectIsProper(c, s, step);
  }

  /** Every message past the queue of its processor was stamped by a step of the run. */
  lemma {:induction false} StampedBySomeStep(c: Setup, steps: seq<Step>, s: State, place: Place, i: nat)
    returns (j: nat, at: State)
    requires Execute(c, INITIAL, steps) == Some(s) && Rank(place) <= 5 && i < |Content(s.at, place)|
    ensures j < |steps| && Execute(c, INITIAL, steps[..j]) == Some(at) && Stamps(at, steps[j], Content(s.at, place)[i])
    decreases |steps|
  {
    hide Enabled, Apply, Shape, Stamps, Rank;
    var before, last := steps[..|steps| - 1], steps[|steps| - 1];
    ExecuteLast(c, steps, s);
    var s0 := Execute(c, INITIAL, before).value;
    assert Reachable(c, s0);
    ReachableShape(c, s0);
    var from, k := BeforeOrStamped(c, s0, last, place, i);
    if Stamps(s0, last, Content(s.at, place)[i]) {
      j, at := |steps| - 1, s0;
    } else {
      j, at := StampedBySomeStep(c, before, s0, from, k);
      assert before[..j] == steps[..j];
    }
  }

  /**
   A delivered message carries the time its processor's clock showed when it took the message: some step of the run took
   the message as its producer made it from the queue of the processor its type is routed to, at that time, and wrote
   that processor and that time into it, and nothing else.
   */
  lemma ProcessedWhenTaken(c: Setup, steps: seq<Step>, s: State, strategy: nat, i: nat) returns (j: nat, at: State)
    requires Execute(c, INITIAL, steps) == Some(s) && i < |Content(s.at, Delivered(strategy))|
    ensures j < |steps| && Execute(c, INITIAL, steps[..j]) == Some(at)
    ensures var m := Content(s.at, Delivered(strategy))[i];
            && m.processorId == c.config.ProcessorFor(m.msgType)
            && steps[j].Take? && steps[j].t == Processor(m.processorId) && steps[j].now == m.processingTimestamp
            && 1 <= m.sequenceNumber <= |GeneratedBy(s, m.producerId)|
            && var (waiting, made) :=
                 (Waiting(at, ToProcessor(m.processorId)), GeneratedBy(s, m.producerId)[m.sequenceNumber - 1]);
               && waiting != [] && waiting[0] == made
               && m == made.(processorId := m.processorId, processingTimestamp := m.processingTimestamp)
  {
    assert Reachable(c, s);
    j, at := StampedBySomeStep(c, steps, s, Delivered(strategy), i);
    var m := Content(s.at, Delivered(strategy))[i];
    DeliveredAsMade(c, s, strategy, i);
    ReachableShape(c, s);
    assert MadeBy(m.producerId, m.sequenceNumber - 1, GeneratedBy(s, m.producerId)[m.sequenceNumber - 1]);
    assert Reachable(c, at);
    ReachableShape(c, at);
    var q := ToProcessor(m.processorId);
    assert MayBeAt(c, Queue(q), Content(at.at, Queue(q))[0]);
  }
}
