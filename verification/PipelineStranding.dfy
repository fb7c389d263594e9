/**
 What a run leaves behind: of every queue, the messages pushed after the tail that its consumer saw when it last found
 the queue empty.
 */
module PipelineStranding {
  import opened Wrappers
  import opened Messages
  import opened Sums
  import opened Pipeline
  import opened PipelineFlow
  import opened PipelineInvariant
  import opened PipelineDelivery
  import opened PipelineReport
  import opened PipelineStopOrder

  /** The step finds this queue empty. */
  predicate FindsEmpty(s: State, step: Step, q: QueueId) {
    step.Miss? && step.t == Consumer(q) && PcOf(s, step.t).Scanning? && Input(step.t, PcOf(s, step.t).i) == q
  }

  /** The position at which the consumer saw the tail when it last found the queue empty; `view` if it never did. */
  function LastView(c: Setup, s: State, steps: seq<Step>, q: QueueId, view: int): int
    requires Execute(c, s, steps).Some?
    decreases |steps|
  {
    if steps == [] then view
    else LastView(c, Apply(c, s, steps[0]), steps[1..], q, if FindsEmpty(s, steps[0], q) then steps[0].seen else view)
  }

  /** The thread is dealing with this queue: trying to pop it, or with a message it popped from it. */
  predicate Amid(s: State, q: QueueId) {
    match PcOf(s, Consumer(q))
    case Scanning(i) => i == InputIndex(q)
    case Sending(i, _) => i == InputIndex(q)
    case Counting(i, _) => i == InputIndex(q)
    case _ => false
  }

  lemma PoppedAfter(c: Setup, s: State, step: Step, q: QueueId)
    requires Enabled(c, s, step)
    ensures PoppedFrom(Apply(c, s, step), q) == PoppedFrom(s, q) +
            (if step.Take? && Input(step.t, PcOf(s, step.t).i) == q then 1 else 0)
  {
    var e := EffectOf(c, s, step);
    if e.Shift? {
      assert e.from != e.to;
    }
  }

  /** Only its consumer takes from a queue, and only while dealing with it; finding it empty is the way out. */
  lemma AmidAfter(c: Setup, s: State, step: Step, q: QueueId)
    requires Enabled(c, s, step) && HasInput(c, q)
    ensures step.Take? && Input(step.t, PcOf(s, step.t).i) == q ==> Amid(s, q)
    ensures Amid(s, q) && !Amid(Apply(c, s, step), q) ==> FindsEmpty(s, step, q)
    ensures FindsEmpty(s, step, q) ==> step.seen == PoppedFrom(s, q) && Amid(s, q)
  {
    OneThreadOnly(c, s, step, q);
    if Mover(c, step) == Consumer(q) {
      ConsumerAmid(c, s, step, q);
    } else {
      OtherHands(c, s, step, Consumer(q));
      hide Enabled, Apply;
    }
  }

  lemma OneThreadOnly(c: Setup, s: State, step: Step, q: QueueId)
    requires Enabled(c, s, step) && HasInput(c, q)
    ensures step.Take? && Input(step.t, PcOf(s, step.t).i) == q ==> Amid(s, q)
    ensures FindsEmpty(s, step, q) ==> step.seen == PoppedFrom(s, q) && Amid(s, q)
  {
  }

  lemma ConsumerAmid(c: Setup, s: State, step: Step, q: QueueId)
    requires Enabled(c, s, step) && HasInput(c, q) && Mover(c, step) == Consumer(q)
    ensures Amid(s, q) && !Amid(Apply(c, s, step), q) ==> FindsEmpty(s, step, q)
  {
    assert PcOf(Apply(c, s, step), Consumer(q)) == NextPc(c, s, step);
    hide Apply;
  }

  /** What was popped is what was there when it was last found empty, unless it is being popped. */
  lemma StepView(c: Setup, s: State, step: Step, q: QueueId, view: int)
    requires Enabled(c, s, step) && HasInput(c, q) && (Amid(s, q) || PoppedFrom(s, q) == view)
    ensures var s' := Apply(c, s, step);
            Amid(s', q) || PoppedFrom(s', q) == if FindsEmpty(s, step, q) then step.seen else view
  {
    PoppedAfter(c, s, step, q);
    AmidAfter(c, s, step, q);
  }

  lemma {:induction false} RunView(c: Setup, s: State, steps: seq<Step>, s': State, q: QueueId, view: int)
    requires Execute(c, s, steps) == Some(s') && HasInput(c, q) && (Amid(s, q) || PoppedFrom(s, q) == view)
    ensures Amid(s', q) || PoppedFrom(s', q) == LastView(c, s, steps, q, view)
    decreases |steps|
  {
    if steps != [] {
      var next := if FindsEmpty(s, steps[0], q) then steps[0].seen else view;
      StepView(c, s, steps[0], q, view);
      hide Enabled, Apply, Amid, FindsEmpty;
      RunView(c, Apply(c, s, steps[0]), steps[1..], s', q, next);
    }
  }

  /**
   In every run, whatever anyone saw: when its consumer is not dealing with it, a queue holds just the messages pushed
   after the tail that the consumer saw when it last found the queue empty.
   */
  lemma WaitingIsUnseen(c: Setup, steps: seq<Step>, s: State, q: QueueId)
    requires Execute(c, INITIAL, steps) == Some(s) && HasInput(c, q) && !Amid(s, q)
    ensures |Waiting(s, q)| == PushedTo(s, q) - LastView(c, INITIAL, steps, q, 0)
  {
    RunView(c, INITIAL, steps, s, q, 0);
  }

  // ----- A pass after the upstream was joined -----

  /** The thread has yet to find this queue empty in its current pass. */
  predicate Before(s: State, q: QueueId) {
    match PcOf(s, Consumer(q))
    case Scanning(i) => i <= InputIndex(q)
    case Sending(i, _) => i <= InputIndex(q)
    case Counting(i, _) => i <= InputIndex(q)
    case _ => false
  }

  lemma BeforeAfter(c: Setup, s: State, step: Step, q: QueueId)
    requires Enabled(c, s, step) && HasInput(c, q) && Before(s, q)
    ensures Before(Apply(c, s, step), q) || FindsEmpty(s, step, q)
  {
    if Mover(c, step) == Consumer(q) {
      assert PcOf(Apply(c, s, step), Consumer(q)) == NextPc(c, s, step);
      hide Apply;
    } else {
      OtherHands(c, s, step, Consumer(q));
      hide Enabled, Apply;
    }
  }

  /** A pass looks at all inputs, so what was seen before it does not matter. */
  lemma {:induction false} PassLooks(c: Setup, s: State, steps: seq<Step>, s': State, q: QueueId, v: int, w: int)
    requires Execute(c, s, steps) == Some(s') && HasInput(c, q) && Before(s, q) && !Before(s', q)
    ensures LastView(c, s, steps, q, v) == LastView(c, s, steps, q, w)
    decreases |steps|
  {
    BeforeAfter(c, s, steps[0], q);
    hide Enabled, Apply, FindsEmpty, Before;
    if !FindsEmpty(s, steps[0], q) {
      PassLooks(c, Apply(c, s, steps[0]), steps[1..], s', q, v, w);
    }
  }

  lemma NoPushAfterExit(c: Setup, s: State, step: Step, q: QueueId)
    requires Enabled(c, s, step) && PcOf(s, Pusher(q)).Exited?
    ensures PushedTo(Apply(c, s, step), q) == PushedTo(s, q)
    ensures PcOf(Apply(c, s, step), Pusher(q)).Exited?
  {
  }

  /** Once its pusher has exited, a queue is changed by its consumer only, which takes messages out. */
  lemma {:induction false} OnlyShrinks(c: Setup, s: State, steps: seq<Step>, s': State, q: QueueId)
    requires Execute(c, s, steps) == Some(s') && PcOf(s, Pusher(q)).Exited?
    ensures PushedTo(s', q) == PushedTo(s, q) && |Waiting(s', q)| <= |Waiting(s, q)| && PcOf(s', Pusher(q)).Exited?
    decreases |steps|
  {
    if steps != [] {
      NoPushAfterExit(c, s, steps[0], q);
      PoppedAfter(c, s, steps[0], q);
      hide Enabled, Apply;
      OnlyShrinks(c, Apply(c, s, steps[0]), steps[1..], s', q);
    }
  }

  /**
   A stage passes its running test with the thread that feeds an input joined, and comes back to that test: then it
   has left in the input what was pushed after the tail it saw when it found the input empty. If that was the final
   tail, and only then, the input is empty, and stays so.
   */
  lemma CleanPass(c: Setup, s: State, pass: seq<Step>, s1: State, later: seq<Step>, s': State, t: Thread, i: nat)
    requires PcOf(s, t) == Scanning(0) && i < InputCount(c, t) && PcOf(s, Upstream(t, i)).Exited?
    requires Execute(c, s, pass) == Some(s1) && PcOf(s1, t).Checking?
    requires Execute(c, s1, later) == Some(s')
    ensures var q := Input(t, i);
            var unseen := PushedTo(s, q) - LastView(c, s, pass, q, 0);
            && |Waiting(s1, q)| == unseen
            && (unseen == 0 ==> Waiting(s', q) == [])
  {
    var q := Input(t, i);
    assert Consumer(q) == t && InputIndex(q) == i;
    RunView(c, s, pass, s1, q, PoppedFrom(s, q));
    PassLooks(c, s, pass, s1, q, PoppedFrom(s, q), 0);
    OnlyShrinks(c, s, pass, s1, q);
    OnlyShrinks(c, s1, later, s', q);
  }

  /** The thread sees the tail of an input it finds empty as it is. */
  predicate UpToDate(s: State, step: Step, t: Thread) {
    step.Miss? && step.t == t ==> step.seen == PushedTo(s, Input(t, if PcOf(s, t).Scanning? then PcOf(s, t).i else 0))
  }

  predicate UpToDateRun(c: Setup, s: State, steps: seq<Step>, t: Thread)
    requires Execute(c, s, steps).Some?
    decreases |steps|
  {
    steps == [] || (UpToDate(s, steps[0], t) && UpToDateRun(c, Apply(c, s, steps[0]), steps[1..], t))
  }

  // ----- At the end -----

  /** Each queue's last look saw all that was ever pushed to it. */
  ghost predicate AllSeen(c: Setup, steps: seq<Step>, s: State)
    requires Execute(c, INITIAL, steps) == Some(s)
  {
    forall q :: InRange(c, Queue(q)) ==> LastView(c, INITIAL, steps, q, 0) == PushedTo(s, q)
  }

  lemma InRangeHasInput(c: Setup, q: QueueId)
    requires InRange(c, Queue(q))
    ensures HasInput(c, q)
  {
  }

  lemma ExitedIsNotAmid(c: Setup, s: State, q: QueueId)
    requires AllExited(c, s) && InRange(c, Queue(q))
    ensures !Amid(s, q)
  {
    PositionOf(c, Consumer(q));
    assert PcOf(s, StopOrder(c, StopPosition(c, Consumer(q)))).Exited?;
  }

  lemma NothingInQueues(c: Setup, s: State)
    requires PlacesOk(c, s)
    ensures Mass(InQueue, s.at) == 0 <==> forall q :: InRange(c, Queue(q)) ==> Waiting(s, q) == []
  {
    if forall q :: InRange(c, Queue(q)) ==> Waiting(s, q) == [] {
      forall place ensures Content(s.at, place) == [] || forall m :: WeightOf(InQueue, place, m) == 0 {
        assert Content(s.at, place) != [] ==> MayBeAt(c, place, Content(s.at, place)[0]);
        assert place.Queue? ==> Content(s.at, place) == Waiting(s, place.q);
      }
      MassZero(InQueue, s.at);
    }
    forall q | Waiting(s, q) != [] ensures Mass(InQueue, s.at) > 0 {
      WaitingWeighs(s.at, q);
    }
  }

  lemma WaitingWeighs(at: map<Place, seq<Message>>, q: QueueId)
    requires Content(at, Queue(q)) != []
    ensures Mass(InQueue, at) > 0
  {
    MapSumSplit(Masses(InQueue, at), Queue(q));
    assert PlaceMass(InQueue, Queue(q), at[Queue(q)]) >= 1;
  }

  /**
   When every thread has been stopped and joined, nothing is left behind exactly if every consumer's last look at each
   of its inputs saw the final tail; and exactly then only the processors' drops are missing from the report.
   */
  lemma NothingStranded(c: Setup, steps: seq<Step>, s: State)
    requires Execute(c, INITIAL, steps) == Some(s) && AllExited(c, s)
    ensures Mass(InQueue, s.at) == 0 <==> AllSeen(c, steps, s)
    ensures Produced(c, s) == TotalDelivered(c, s) + MessagesLost(s) + Mass(DroppedByProcessors, s.at) <==>
            AllSeen(c, steps, s)
  {
    ReachableShape(c, s);
    FinalFigures(c, s);
    NothingInQueues(c, s);
    forall q | InRange(c, Queue(q))
      ensures Waiting(s, q) == [] <==> LastView(c, INITIAL, steps, q, 0) == PushedTo(s, q)
    {
      InRangeHasInput(c, q);
      ExitedIsNotAmid(c, s, q);
      WaitingIsUnseen(c, steps, s, q);
    }
  }
}
