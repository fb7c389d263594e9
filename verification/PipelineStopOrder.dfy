/** The wiring of threads and queues, and the stop sequence: a stage is stopped only after everything upstream. */
module PipelineStopOrder {
  import opened Wrappers
  import opened Pipeline
  import opened PipelineDelivery
  import opened PipelineReport
  import opened PipelineDrain

  // ----- Wiring -----

  /** The thread that pops a queue, and at which place of its scan. */
  function Consumer(q: QueueId): Thread {
    match q
    case FromProducer(_) => Router1
    case ToProcessor(r) => Processor(r)
    case FromProcessor(_) => Router2
    case ToStrategy(k) => Strategy(k)
  }

  function InputIndex(q: QueueId): nat {
    match q
    case FromProducer(p) => p
    case FromProcessor(r) => r
    case _ => 0
  }

  /** The thread that pushes to input `i`. */
  function Upstream(t: Thread, i: nat): Thread {
    match t
    case Producer(_) => t
    case Router1 => Producer(i)
    case Processor(_) => Router1
    case Router2 => Processor(i)
    case Strategy(_) => Router2
  }

  /** The thread that pushes to a queue. */
  function Pusher(q: QueueId): Thread {
    Upstream(Consumer(q), InputIndex(q))
  }

  /** The queue is an input of its consumer. */
  predicate HasInput(c: Setup, q: QueueId) {
    InputIndex(q) < InputCount(c, Consumer(q))
  }

  /** The threads are those the configuration asks for, and the two routers. */
  lemma ThreadsAreConfigured(c: Setup)
    ensures forall p: nat :: c.Runs(Producer(p)) <==> p < c.config.producers
    ensures forall r: nat :: c.Runs(Processor(r)) <==> r < c.config.processors
    ensures forall k: nat :: c.Runs(Strategy(k)) <==> k < c.config.strategies
    ensures c.Runs(Router1) && c.Runs(Router2)
    ensures c.config.Validate() <==>
            c.config.durationSecs > 0 && c.Runs(Producer(0)) && c.Runs(Processor(0)) && c.Runs(Strategy(0))
    ensures c.config.Validate() ==>
              ThreadCount(c) == c.config.producers + c.config.processors + c.config.strategies + 2
  {
  }

  /**
   Every queue between configured threads has one thread that runs at either end, as a single-producer single-consumer
   queue requires.
   */
  lemma OneThreadAtEachEnd(c: Setup, q: QueueId)
    requires match q
             case FromProducer(p) => p < c.config.producers
             case ToProcessor(r) => r < c.config.processors
             case FromProcessor(r) => r < c.config.processors
             case ToStrategy(k) => k < c.config.strategies
    ensures c.Runs(Pusher(q)) && c.Runs(Consumer(q)) && Pusher(q) != Consumer(q)
    ensures HasInput(c, q) && Input(Consumer(q), InputIndex(q)) == q
    ensures forall t, i: nat :: i < InputCount(c, t) && Input(t, i) == q ==> t == Consumer(q) && i == InputIndex(q)
    ensures forall t, m :: Target(c, t, m) == Some(q) ==> t == Pusher(q)
  {
  }

  // ----- Stopping in order -----

  /** Who has been told to stop, or has stopped, comes after nobody who still runs. */
  ghost predicate StopsOk(c: Setup, s: State) {
    && (forall i, j :: 0 <= j < i < ThreadCount(c) && StopOrder(c, i) in s.stopped ==> PcOf(s, StopOrder(c, j)).Exited?)
    && (forall t :: PcOf(s, t).Exited? ==> t in s.stopped)
  }

  lemma ExitedStays(c: Setup, s: State, step: Step, t: Thread)
    requires Enabled(c, s, step) && PcOf(s, t).Exited?
    ensures PcOf(Apply(c, s, step), t).Exited?
  {
  }

  lemma StoppedAfter(c: Setup, s: State, step: Step)
    requires Enabled(c, s, step)
    ensures Apply(c, s, step).stopped == s.stopped + (if step.Stop? then {StopOrder(c, step.i)} else {})
    ensures forall t :: PcOf(Apply(c, s, step), t).Exited? ==> PcOf(s, t).Exited? || t in s.stopped
  {
  }

  lemma StepStops(c: Setup, s: State, step: Step)
    requires StopsOk(c, s) && Enabled(c, s, step)
    ensures StopsOk(c, Apply(c, s, step))
  {
    var s' := Apply(c, s, step);
    StoppedAfter(c, s, step);
    forall i, j | 0 <= j < i < ThreadCount(c) && StopOrder(c, i) in s'.stopped
      ensures PcOf(s', StopOrder(c, j)).Exited?
    {
      OrderPosition(c, i);
      if step.Stop? {
        OrderPosition(c, step.i);
      }
      ExitedStays(c, s, step, StopOrder(c, j));
    }
  }

  lemma {:induction false} RunStops(c: Setup, s: State, steps: seq<Step>, s': State)
    requires StopsOk(c, s) && Execute(c, s, steps) == Some(s')
    ensures StopsOk(c, s')
    decreases |steps|
  {
    if steps != [] {
      StepStops(c, s, steps[0]);
      RunStops(c, Apply(c, s, steps[0]), steps[1..], s');
    }
  }

  /** In every run, a stage that was told to stop has no live thread upstream. */
  lemma StoppedAfterUpstream(c: Setup, s: State, t: Thread, i: nat)
    requires Reachable(c, s) && c.Runs(t) && t in s.stopped && i < InputCount(c, t)
    ensures PcOf(s, Upstream(t, i)).Exited?
  {
    var steps :| Execute(c, INITIAL, steps) == Some(s);
    RunStops(c, INITIAL, steps, s);
    PositionOf(c, t);
    PositionOf(c, Upstream(t, i));
    assert StopPosition(c, Upstream(t, i)) < StopPosition(c, t);
    assert StopOrder(c, StopPosition(c, t)) in s.stopped;
  }

  /** Who has not been told to stop runs. */
  lemma NotStoppedRuns(c: Setup, s: State)
    requires Reachable(c, s) && forall t: Thread :: !t.Producer? ==> t !in s.stopped
    ensures StagesRun(s)
  {
    var steps :| Execute(c, INITIAL, steps) == Some(s);
    RunStops(c, INITIAL, steps, s);
  }
}
