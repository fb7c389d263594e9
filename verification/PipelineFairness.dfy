/**
 Every fair schedule empties the system: if, again and again, each stage gets a number of steps and does not look at
 tails older than when that round began, all work gets done, whatever else happens in between.
 */
module PipelineFairness {
  import opened Wrappers
  import opened Pipeline
  import opened PipelineInvariant
  import opened PipelineReport
  import opened PipelineDelivery
  import opened PipelineDrain
  import opened PipelineStopOrder

  /** How many of the steps are the thread's own. */
  function Own(c: Setup, steps: seq<Step>, t: Thread): nat {
    if steps == [] then 0 else (if Mover(c, steps[0]) == t then 1 else 0) + Own(c, steps[1..], t)
  }

  predicate Busy(s: State, t: Thread) {
    PcOf(s, t).Sending? || PcOf(s, t).Counting?
  }

  /** How many steps a thread gets in a round: enough for a stage to go through its inputs once. */
  function Share(c: Setup, s: State, t: Thread): nat {
    if IsStage(t) then InputCount(c, t) + 2 else if Busy(s, t) then 1 else 0
  }

  /** What `start` had pushed is seen: no thread finds an input empty for a tail older than that. */
  predicate Sees(start: State, s: State, step: Step) {
    step.Miss? && PcOf(s, step.t).Scanning? ==> step.seen >= PushedTo(start, Input(step.t, PcOf(s, step.t).i))
  }

  predicate AllSee(c: Setup, start: State, s: State, steps: seq<Step>)
    requires Execute(c, s, steps).Some?
    decreases |steps|
  {
    steps == [] || (Sees(start, s, steps[0]) && AllSee(c, start, Apply(c, s, steps[0]), steps[1..]))
  }

  /** No message is made and no thread stopped; each thread gets its share; old pushes are seen. */
  ghost predicate FairRound(c: Setup, s: State, steps: seq<Step>) {
    && Execute(c, s, steps).Some? && Quiet(steps) && AllSee(c, s, s, steps)
    && forall t :: c.Runs(t) ==> Own(c, steps, t) >= Share(c, s, t)
  }

  /** Fair rounds, one after the other. */
  ghost predicate FairRun(c: Setup, s: State, rounds: seq<seq<Step>>, s': State)
    decreases |rounds|
  {
    if rounds == [] then s == s'
    else FairRound(c, s, rounds[0]) && FairRun(c, Execute(c, s, rounds[0]).value, rounds[1..], s')
  }

  // ----- A round without work -----

  /** Neither places nor pushes change by a step that does no work. */
  lemma IdleStep(c: Setup, s: State, step: Step)
    requires Enabled(c, s, step) && !Works(step) && !step.Generate? && !step.Stop?
    ensures var s' := Apply(c, s, step); s' == s.(at := s.at, pc := s'.pc)
    ensures !Busy(s, Mover(c, step))
  {
  }

  /** A thread that holds a message or owes a count does nothing else. */
  lemma {:induction false} BusyWaits(c: Setup, s: State, steps: seq<Step>, t: Thread)
    requires Execute(c, s, steps).Some? && Quiet(steps) && WorkIn(steps) == 0 && Busy(s, t)
    ensures Own(c, steps, t) == 0
    decreases |steps|
  {
    if steps != [] {
      var step := steps[0];
      IdleStep(c, s, step);
      QuietTail(steps);
      OtherHands(c, s, step, t);
      BusyWaits(c, Apply(c, s, step), steps[1..], t);
    }
  }

  lemma QuietTail(steps: seq<Step>)
    requires Quiet(steps) && steps != []
    ensures !steps[0].Generate? && !steps[0].Stop? && Quiet(steps[1..])
  {
    assert forall i :: 0 <= i < |steps| - 1 ==> steps[1..][i] == steps[i + 1];
  }

  /** How many tests a thread makes before it tries input `i` next. */
  function Distance(c: Setup, s: State, t: Thread, i: nat): nat {
    match PcOf(s, t)
    case Scanning(j) => if j <= i then i - j else i + 2 + (if j < InputCount(c, t) then InputCount(c, t) - j else 0)
    case _ => i + 1
  }

  /** A test of another input brings a thread closer to input `i`; a test of input `i` finds a message there. */
  lemma IdleMovesOn(c: Setup, start: State, s: State, step: Step, t: Thread, i: nat)
    requires Enabled(c, s, step) && !Works(step) && !step.Generate? && !step.Stop? && Mover(c, step) == t
    requires t !in s.stopped && i < InputCount(c, t) && Waiting(s, Input(t, i)) != []
    requires Sees(start, s, step) && PushedTo(s, Input(t, i)) == PushedTo(start, Input(t, i))
    ensures Distance(c, Apply(c, s, step), t, i) < Distance(c, s, t, i)
  {
  }

  lemma OthersKeepDistance(c: Setup, s: State, step: Step, t: Thread, i: nat)
    requires Enabled(c, s, step) && Mover(c, step) != t
    ensures Distance(c, Apply(c, s, step), t, i) == Distance(c, s, t, i)
  {
    OtherHands(c, s, step, t);
    hide Apply;
  }

  /** While something waits at its input `i`, a thread can do only so many steps before it takes a message. */
  lemma {:induction false} FewIdleSteps(c: Setup, start: State, s: State, steps: seq<Step>, t: Thread, i: nat)
    requires Execute(c, s, steps).Some? && Quiet(steps) && WorkIn(steps) == 0 && StagesRun(s) && IsStage(t)
    requires AllSee(c, start, s, steps) && s.pushed == start.pushed
    requires i < InputCount(c, t) && Waiting(s, Input(t, i)) != []
    ensures Own(c, steps, t) <= Distance(c, s, t, i)
    decreases |steps|
  {
    if steps != [] {
      var step := steps[0];
      QuietTail(steps);
      IdleStep(c, s, step);
      StagesKeepRunning(c, s, step);
      if Mover(c, step) == t {
        IdleMovesOn(c, start, s, step, t, i);
      } else {
        OthersKeepDistance(c, s, step, t, i);
      }
      hide Enabled, Apply, Distance, Sees;
      FewIdleSteps(c, start, Apply(c, s, step), steps[1..], t, i);
    }
  }

  lemma DistanceBounded(c: Setup, s: State, t: Thread, i: nat)
    requires i < InputCount(c, t)
    ensures Distance(c, s, t, i) <= InputCount(c, t) + 1
  {
  }

  lemma BusyWorks(c: Setup, s: State, steps: seq<Step>, t: Thread)
    requires Shape(c, s) && FairRound(c, s, steps) && Busy(s, t)
    ensures WorkIn(steps) > 0
  {
    assert !c.Runs(t) ==> PcOf(s, t) == Checking;
    assert Own(c, steps, t) >= 1;
    if WorkIn(steps) == 0 {
      BusyWaits(c, s, steps, t);
    }
  }

  lemma WaitingWorks(c: Setup, s: State, steps: seq<Step>, q: QueueId)
    requires Shape(c, s) && StagesRun(s) && FairRound(c, s, steps) && Waiting(s, q) != []
    ensures WorkIn(steps) > 0
  {
    var t, i := Consumer(q), InputIndex(q);
    assert MayBeAt(c, Queue(q), Content(s.at, Queue(q))[0]);
    if WorkIn(steps) == 0 {
      FewIdleSteps(c, s, s, steps, t, i);
      DistanceBounded(c, s, t, i);
    }
  }

  /** As long as there is work left, a fair round does some of it. */
  lemma RoundWorks(c: Setup, s: State, steps: seq<Step>)
    requires Shape(c, s) && StagesRun(s) && FairRound(c, s, steps) && Measure(c, s) > 0
    ensures WorkIn(steps) > 0
  {
    NoWorkIsDrained(c, s);
    if t :| Busy(s, t) {
      BusyWorks(c, s, steps, t);
    } else {
      forall t ensures Content(s.at, Hand(t)) == [] && !PcOf(s, t).Counting? {
        assert !Busy(s, t) && |Content(s.at, Hand(t))| == if PcOf(s, t).Sending? then 1 else 0;
      }
      var q :| Waiting(s, q) != [];
      WaitingWorks(c, s, steps, q);
    }
  }

  lemma {:induction false} QuietKeepsRunning(c: Setup, s: State, steps: seq<Step>, s': State)
    requires StagesRun(s) && Execute(c, s, steps) == Some(s') && Quiet(steps)
    ensures StagesRun(s')
    decreases |steps|
  {
    if steps != [] {
      QuietTail(steps);
      StagesKeepRunning(c, s, steps[0]);
      QuietKeepsRunning(c, Apply(c, s, steps[0]), steps[1..], s');
    }
  }

  lemma {:induction false} FairRunMeasure(c: Setup, s: State, rounds: seq<seq<Step>>, s': State)
    requires Shape(c, s) && StagesRun(s) && FairRun(c, s, rounds, s')
    ensures Shape(c, s') && Measure(c, s') <= if Measure(c, s) > |rounds| then Measure(c, s) - |rounds| else 0
    decreases |rounds|
  {
    if rounds != [] {
      var s1 := Execute(c, s, rounds[0]).value;
      RunShape(c, s, rounds[0], s1);
      QuietKeepsRunning(c, s, rounds[0], s1);
      WorkIsBounded(c, s, rounds[0], s1);
      if Measure(c, s) > 0 {
        RoundWorks(c, s, rounds[0]);
      }
      FairRunMeasure(c, s1, rounds[1..], s');
    }
  }

  /**
   Under every fair schedule: as many rounds as there is work to do, whatever their steps are, leave all queues and
   hands empty and no count owed.
   */
  lemma FairRunsDrain(c: Setup, s: State, rounds: seq<seq<Step>>, s': State)
    requires Reachable(c, s) && (forall t: Thread :: !t.Producer? ==> t !in s.stopped)
    requires FairRun(c, s, rounds, s') && |rounds| >= Measure(c, s)
    ensures Drained(s')
  {
    NotStoppedRuns(c, s);
    ReachableShape(c, s);
    FairRunMeasure(c, s, rounds, s');
    NoWorkIsDrained(c, s');
  }

  // ----- There are such schedules -----

  /** The step sees the other side's index as it is. */
  predicate Current(c: Setup, s: State, step: Step)
    requires Enabled(c, s, step)
  {
    match step
    case Take(t, seen, _) => seen == PushedTo(s, Input(t, PcOf(s, t).i))
    case Miss(t, seen) => seen == PushedTo(s, Input(t, PcOf(s, t).i))
    case Push(t, seen) => seen == PoppedFrom(s, Target(c, t, Held(s, t).value).value)
    case Refuse(t, seen) => seen == PoppedFrom(s, Target(c, t, Held(s, t).value).value)
    case _ => true
  }

  predicate AllCurrent(c: Setup, s: State, steps: seq<Step>)
    requires Execute(c, s, steps).Some?
    decreases |steps|
  {
    steps == [] || (Current(c, s, steps[0]) && AllCurrent(c, Apply(c, s, steps[0]), steps[1..]))
  }

  /** Nothing that `start` had pushed is not pushed any more. */
  ghost predicate Since(start: State, s: State) {
    forall q :: PushedTo(start, q) <= PushedTo(s, q)
  }

  lemma SinceStep(c: Setup, start: State, s: State, step: Step)
    requires Since(start, s) && Enabled(c, s, step)
    ensures Since(start, Apply(c, s, step))
  {
    forall q ensures PushedTo(start, q) <= PushedTo(Apply(c, s, step), q) {
      assert PushedTo(start, q) <= PushedTo(s, q);
    }
  }

  /** The step a thread that holds a message, or owes a count, can take, with an up-to-date view. */
  lemma BusyCanWork(c: Setup, s: State, t: Thread) returns (step: Step)
    requires Shape(c, s) && (PcOf(s, t).Sending? || PcOf(s, t).Counting?)
    ensures Enabled(c, s, step) && Works(step) && Mover(c, step) == t && Current(c, s, step)
  {
    assert c.Runs(t) by {
      assert !c.Runs(t) ==> PcOf(s, t) == Checking;
    }
    if PcOf(s, t).Counting? {
      step := Count(t);
    } else {
      assert |Content(s.at, Hand(t))| == 1;
      var m := Held(s, t).value;
      if t.Strategy? {
        step := Deliver(t.s);
      } else if Target(c, t, m).None? {
        step := Reject(t);
      } else {
        var q := Target(c, t, m).value;
        assert |Waiting(s, q)| <= PushedTo(s, q) && |Waiting(s, q)| <= c.capacity;
        step := if |Waiting(s, q)| == c.capacity then Refuse(t, PoppedFrom(s, q)) else Push(t, PoppedFrom(s, q));
      }
    }
  }

  lemma QuietMore(step: Step, steps: seq<Step>)
    requires Quiet(steps) && !step.Generate? && !step.Stop?
    ensures Quiet([step] + steps)
  {
  }

  /** The next test of a thread that holds nothing, with an up-to-date view. */
  lemma NextTest(c: Setup, s: State, t: Thread) returns (step: Step)
    requires Shape(c, s) && StagesRun(s) && c.Runs(t) && IsStage(t)
    requires PcOf(s, t).Checking? || PcOf(s, t).Scanning?
    ensures Enabled(c, s, step) && Mover(c, step) == t && (step.Take? || step.Miss? || step.Wrap? || step.Check?)
    ensures Current(c, s, step)
    ensures step.Miss? ==> Waiting(s, Input(t, PcOf(s, t).i)) == []
  {
    if PcOf(s, t).Checking? {
      step := Check(t);
    } else {
      var j := PcOf(s, t).i;
      if j >= InputCount(c, t) {
        step := Wrap(t, 0);
      } else {
        var q := Input(t, j);
        assert |Waiting(s, q)| <= PushedTo(s, q);
        step := if Waiting(s, q) == [] then Miss(t, PushedTo(s, q)) else Take(t, PushedTo(s, q), 0);
      }
    }
  }

  /** A stage, or a busy producer, can take a step that sees its input as it is. */
  lemma OwnStep(c: Setup, start: State, s: State, t: Thread) returns (step: Step)
    requires Shape(c, s) && StagesRun(s) && c.Runs(t) && (IsStage(t) || Busy(s, t)) && Since(start, s)
    ensures Enabled(c, s, step) && Mover(c, step) == t && !step.Generate? && !step.Stop?
    ensures Sees(start, s, step) && Current(c, s, step)
  {
    if Busy(s, t) {
      step := BusyCanWork(c, s, t);
    } else {
      assert !PcOf(s, t).Exited?;
      step := NextTest(c, s, t);
      if step.Miss? {
        assert PushedTo(start, Input(t, PcOf(s, t).i)) <= PushedTo(s, Input(t, PcOf(s, t).i));
      }
    }
  }

  lemma {:induction false} TakeTurns(c: Setup, start: State, s: State, t: Thread, n: nat)
    returns (steps: seq<Step>, s': State)
    requires Shape(c, s) && StagesRun(s) && c.Runs(t) && Since(start, s)
    requires IsStage(t) || n == 0 || (n == 1 && Busy(s, t))
    ensures Execute(c, s, steps) == Some(s') && Quiet(steps) && AllSee(c, start, s, steps) && AllCurrent(c, s, steps)
    ensures Own(c, steps, t) == n
    ensures Shape(c, s') && StagesRun(s') && Since(start, s') && forall u :: u != t ==> PcOf(s', u) == PcOf(s, u)
    decreases n
  {
    if n == 0 {
      steps, s' := [], s;
    } else {
      var step := OwnStep(c, start, s, t);
      hide Enabled, Apply, Shape, StagesRun, Sees, Current;
      var s1 := Apply(c, s, step);
      StepShape(c, s, step);
      StagesKeepRunning(c, s, step);
      SinceStep(c, start, s, step);
      forall u | u != t ensures PcOf(s1, u) == PcOf(s, u) {
        OtherHands(c, s, step, u);
      }
      var rest;
      rest, s' := TakeTurns(c, start, s1, t, n - 1);
      ExecuteFirst(c, s, step, rest);
      QuietMore(step, rest);
      steps := [step] + rest;
      assert steps[1..] == rest;
    }
  }

  lemma {:induction false} OwnAppend(c: Setup, a: seq<Step>, b: seq<Step>, t: Thread)
    ensures Own(c, a + b, t) == Own(c, a, t) + Own(c, b, t)
  {
    if a == [] {
      assert a + b == b;
    } else {
      OwnAppend(c, a[1..], b, t);
      assert (a + b)[1..] == a[1..] + b;
    }
  }

  lemma {:induction false} AllSeeAppend(c: Setup, start: State, s: State, a: seq<Step>, s1: State, b: seq<Step>)
    requires Execute(c, s, a) == Some(s1) && Execute(c, s1, b).Some? && Execute(c, s, a + b).Some?
    requires AllSee(c, start, s, a) && AllSee(c, start, s1, b)
    ensures AllSee(c, start, s, a + b)
    decreases |a|
  {
    hide Enabled, Apply, Sees;
    if a == [] {
      assert a + b == b;
    } else {
      assert (a + b)[0] == a[0] && (a + b)[1..] == a[1..] + b;
      AllSeeAppend(c, start, Apply(c, s, a[0]), a[1..], s1, b);
    }
  }

  lemma {:induction false} AllCurrentAppend(c: Setup, s: State, a: seq<Step>, s1: State, b: seq<Step>)
    requires Execute(c, s, a) == Some(s1) && Execute(c, s1, b).Some? && Execute(c, s, a + b).Some?
    requires AllCurrent(c, s, a) && AllCurrent(c, s1, b)
    ensures AllCurrent(c, s, a + b)
    decreases |a|
  {
    hide Enabled, Apply, Current;
    if a == [] {
      assert a + b == b;
    } else {
      assert (a + b)[0] == a[0] && (a + b)[1..] == a[1..] + b;
      AllCurrentAppend(c, Apply(c, s, a[0]), a[1..], s1, b);
    }
  }

  /** The threads from number `i` on take their turns. */
  lemma {:induction false} AllTurns(c: Setup, start: State, s: State, i: nat) returns (steps: seq<Step>, s': State)
    requires Shape(c, s) && StagesRun(s) && Since(start, s) && i <= ThreadCount(c)
    requires forall j :: i <= j < ThreadCount(c) ==> PcOf(s, StopOrder(c, j)) == PcOf(start, StopOrder(c, j))
    ensures Execute(c, s, steps) == Some(s') && Quiet(steps) && AllSee(c, start, s, steps) && AllCurrent(c, s, steps)
    ensures forall j :: i <= j < ThreadCount(c) ==>
              Own(c, steps, StopOrder(c, j)) >= Share(c, start, StopOrder(c, j))
    decreases ThreadCount(c) - i
  {
    hide Enabled, Apply, Shape, StagesRun, Sees, Since, Current;
    if i == ThreadCount(c) {
      steps, s' := [], s;
    } else {
      var t := StopOrder(c, i);
      OrderPosition(c, i);
      var first, s1 := TakeTurns(c, start, s, t, Share(c, start, t));
      forall j | i < j < ThreadCount(c) ensures PcOf(s1, StopOrder(c, j)) == PcOf(start, StopOrder(c, j)) {
        OrderPosition(c, j);
      }
      var rest;
      rest, s' := AllTurns(c, start, s1, i + 1);
      ExecuteAppend(c, s, first, rest);
      AllSeeAppend(c, start, s, first, s1, rest);
      AllCurrentAppend(c, s, first, s1, rest);
      forall u ensures Own(c, first + rest, u) == Own(c, first, u) + Own(c, rest, u) {
        OwnAppend(c, first, rest, u);
      }
      steps := first + rest;
    }
  }

  /** From every state in which the stages run, the next round can be a fair one. */
  lemma FairRoundExists(c: Setup, s: State) returns (steps: seq<Step>)
    requires Shape(c, s) && StagesRun(s)
    ensures FairRound(c, s, steps) && AllCurrent(c, s, steps)
  {
    var end;
    steps, end := AllTurns(c, s, s, 0);
    forall t | c.Runs(t) ensures Own(c, steps, t) >= Share(c, s, t) {
      PositionOf(c, t);
      assert Own(c, steps, StopOrder(c, StopPosition(c, t))) >= Share(c, s, StopOrder(c, StopPosition(c, t)));
    }
  }

  /** So can any number of rounds. */
  lemma {:induction false} FairRunExists(c: Setup, s: State, n: nat)
    returns (rounds: seq<seq<Step>>, steps: seq<Step>, s': State)
    requires Shape(c, s) && StagesRun(s)
    ensures |rounds| == n && FairRun(c, s, rounds, s')
    ensures Execute(c, s, steps) == Some(s') && Quiet(steps) && AllCurrent(c, s, steps)
    decreases n
  {
    if n == 0 {
      rounds, steps, s' := [], [], s;
    } else {
      var first := FairRoundExists(c, s);
      var s1 := Execute(c, s, first).value;
      RunShape(c, s, first, s1);
      QuietKeepsRunning(c, s, first, s1);
      var more, rest;
      more, rest, s' := FairRunExists(c, s1, n - 1);
      ExecuteAppend(c, s, first, rest);
      AllCurrentAppend(c, s, first, s1, rest);
      rounds, steps := [first] + more, first + rest;
      assert rounds[1..] == more;
    }
  }

  /** From every reachable state in which the stages run, and for any number of rounds, there is a fair run. */
  lemma FairRunsExist(c: Setup, s: State, n: nat)
    requires Reachable(c, s) && (forall t: Thread :: !t.Producer? ==> t !in s.stopped)
    ensures exists rounds, s' :: |rounds| == n && FairRun(c, s, rounds, s')
  {
    NotStoppedRuns(c, s);
    ReachableShape(c, s);
    var rounds, steps, s' := FairRunExists(c, s, n);
  }

  lemma Drain(c: Setup, s: State) returns (steps: seq<Step>, s': State)
    requires Shape(c, s) && StagesRun(s)
    ensures Execute(c, s, steps) == Some(s') && Quiet(steps) && Drained(s') && AllCurrent(c, s, steps)
  {
    var rounds;
    rounds, steps, s' := FairRunExists(c, s, Measure(c, s));
    FairRunMeasure(c, s, rounds, s');
    NoWorkIsDrained(c, s');
  }

  /** Some run without new messages and without stops leads from one state to the other. */
  ghost predicate QuietlyLeadsTo(c: Setup, s: State, s': State) {
    exists steps :: Execute(c, s, steps) == Some(s') && Quiet(steps)
  }

  /**
   From any reachable state in which the stages run: a continuation that makes no more messages and ends with all
   queues and hands empty.
   */
  lemma CanDrain(c: Setup, s: State)
    requires Reachable(c, s) && (forall t: Thread :: !t.Producer? ==> t !in s.stopped)
    ensures exists s' :: QuietlyLeadsTo(c, s, s') && Drained(s')
  {
    NotStoppedRuns(c, s);
    ReachableShape(c, s);
    var steps, s' := Drain(c, s);
    assert QuietlyLeadsTo(c, s, s');
  }
}
