/** How far apart a producer's messages are in time, wherever they have got to. */
module PipelinePacing {
  import opened MachineWords
  import opened Wrappers
  import opened Messages
  import opened Pipeline
  import opened PipelineOrder

  /** Each message was made no sooner than one interval after the one before, and so will be the next. */
  ghost predicate Paced(c: Setup, s: State) {
    && (forall p, i :: 0 < i < |GeneratedBy(s, p)| ==>
          GeneratedBy(s, p)[i].timestamp >= GeneratedBy(s, p)[i - 1].timestamp + c.Interval())
    && (forall p :: GeneratedBy(s, p) != [] ==>
          Get(s.due, p, 0) == GeneratedBy(s, p)[|GeneratedBy(s, p)| - 1].timestamp + c.Interval())
    && (forall p :: GeneratedBy(s, p) == [] ==> Get(s.due, p, 0) == 0)
  }

  lemma StepPaced(c: Setup, s: State, step: Step)
    requires Paced(c, s) && Enabled(c, s, step)
    ensures Paced(c, Apply(c, s, step))
  {
    GeneratedAfter(c, s, step);
    DueAfter(c, s, step);
    hide Apply, EffectOf;
  }

  lemma DueAfter(c: Setup, s: State, step: Step)
    requires Enabled(c, s, step)
    ensures forall p :: Get(Apply(c, s, step).due, p, 0) ==
                        if step.Generate? && step.p == p then step.now + c.Interval() else Get(s.due, p, 0)
  {
  }

  lemma {:induction false} RunPaced(c: Setup, s: State, steps: seq<Step>, s': State)
    requires Paced(c, s) && Execute(c, s, steps) == Some(s')
    ensures Paced(c, s')
    decreases |steps|
  {
    if steps != [] {
      StepPaced(c, s, steps[0]);
      RunPaced(c, Apply(c, s, steps[0]), steps[1..], s');
    }
  }

  lemma ReachablePaced(c: Setup, s: State)
    requires Reachable(c, s)
    ensures Paced(c, s)
  {
    var steps :| Execute(c, INITIAL, steps) == Some(s);
    RunPaced(c, INITIAL, steps, s);
  }

  lemma {:induction false} MadeApart(c: Setup, s: State, p: nat, i: nat, j: nat)
    requires Paced(c, s) && i <= j < |GeneratedBy(s, p)|
    ensures GeneratedBy(s, p)[j].timestamp - GeneratedBy(s, p)[i].timestamp >= (j - i) * c.Interval()
    decreases j
  {
    if i < j {
      MadeApart(c, s, p, i, j - 1);
      assert (j - i) * c.Interval() == (j - 1 - i) * c.Interval() + c.Interval();
    } else {
      assert (j - i) * c.Interval() == 0;
    }
  }

  /**
   Any two messages of one producer, wherever they are (delivered, for instance), are as many intervals apart as
   their numbers.
   */
  lemma MessagesApart(c: Setup, s: State, here: Place, i: nat, there: Place, j: nat)
    requires Reachable(c, s) && i < |Content(s.at, here)| && j < |Content(s.at, there)|
    requires var (a, b) := (Content(s.at, here)[i], Content(s.at, there)[j]);
             a.producerId == b.producerId && a.sequenceNumber <= b.sequenceNumber
    ensures var (a, b) := (Content(s.at, here)[i], Content(s.at, there)[j]);
            var interval := if c.config.messagesPerSec > 0 then 1000000000 / c.config.messagesPerSec else 0;
            b.timestamp - a.timestamp >= (b.sequenceNumber - a.sequenceNumber) * interval
  {
    ReachablePaced(c, s);
    AuthenticHere(c, s, here, i);
    AuthenticHere(c, s, there, j);
    AuthenticApart(c, s, Content(s.at, here)[i], Content(s.at, there)[j]);
  }

  /**
   A producer at its time test makes a message exactly if its clock shows at least one interval after its last message,
   or a time not before its start for the first; otherwise it yields.
   */
  lemma DueExactly(c: Setup, s: State, p: nat, msgType: nat, now: int)
    requires Reachable(c, s) && p < c.config.producers && c.config.messagesPerSec > 0 && msgType <= 3
    requires PcOf(s, Producer(p)).Scanning? && |GeneratedBy(s, p)| + 2 < TWO_TO_THE_64
    ensures var made := GeneratedBy(s, p);
            var due := if made == [] then 0 else made[|made| - 1].timestamp + 1000000000 / c.config.messagesPerSec;
            && (Enabled(c, s, Generate(p, msgType, now)) <==> now >= due)
            && (Enabled(c, s, Wrap(Producer(p), now)) <==> now < due)
  {
    ReachablePaced(c, s);
  }

  lemma AuthenticApart(c: Setup, s: State, a: Message, b: Message)
    requires Paced(c, s) && Authentic(s, a) && Authentic(s, b)
    requires a.producerId == b.producerId && a.sequenceNumber <= b.sequenceNumber
    ensures b.timestamp - a.timestamp >= (b.sequenceNumber - a.sequenceNumber) * c.Interval()
  {
    var i, j: nat := a.sequenceNumber - 1, b.sequenceNumber - 1;
    MadeApart(c, s, a.producerId, i, j);
    assert a.timestamp == Unstamped(a).timestamp && b.timestamp == Unstamped(b).timestamp;
    assert j - i == b.sequenceNumber - a.sequenceNumber;
  }
}
