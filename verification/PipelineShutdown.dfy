/** A shutdown that loses nothing is possible from every state in which the stages run. */
module PipelineShutdown {
  import opened Wrappers
  import opened Pipeline
  import opened PipelineFlow
  import opened PipelineInvariant
  import opened PipelineReport
  import opened PipelineDrain
  import opened PipelineFairness
  import opened PipelineStopOrder
  import opened PipelineStranding

  /** From where the thread is in its scan, its inputs are empty. */
  ghost predicate NothingAhead(c: Setup, s: State, t: Thread) {
    PcOf(s, t).Scanning? ==> forall i: nat :: PcOf(s, t).i <= i < InputCount(c, t) ==> Waiting(s, Input(t, i)) == []
  }

  /** A thread with nothing ahead comes to its running test, seeing its inputs as they are; nothing else happens. */
  lemma {:induction false} ToTest(c: Setup, s: State, t: Thread) returns (steps: seq<Step>, s': State)
    requires c.Runs(t) && (PcOf(s, t).Checking? || PcOf(s, t).Scanning?) && NothingAhead(c, s, t)
    ensures Execute(c, s, steps) == Some(s') && s' == s.(pc := s'.pc) && PcOf(s', t).Checking?
    ensures forall u :: u != t ==> PcOf(s', u) == PcOf(s, u)
    ensures UpToDateRun(c, s, steps, t)
    decreases if PcOf(s, t).Scanning? && PcOf(s, t).i < InputCount(c, t) then InputCount(c, t) - PcOf(s, t).i else 0
  {
    hide Enabled, Apply;
    if PcOf(s, t).Checking? {
      steps, s' := [], s;
    } else {
      var step, s1 := ScanOn(c, s, t);
      var rest;
      if s1.pc[t].Checking? {
        rest, s' := [], s1;
      } else {
        rest, s' := ToTest(c, s1, t);
      }
      ExecuteFirst(c, s, step, rest);
      steps := [step] + rest;
      assert steps[1..] == rest;
    }
  }

  lemma FindNothing(c: Setup, s: State, t: Thread) returns (step: Step)
    requires c.Runs(t) && PcOf(s, t).Scanning? && NothingAhead(c, s, t) && PcOf(s, t).i < InputCount(c, t)
    ensures Enabled(c, s, step) && UpToDate(s, step, t)
    ensures Apply(c, s, step) == s.(pc := s.pc[t := Scanning(PcOf(s, t).i + 1)])
  {
    var q := Input(t, PcOf(s, t).i);
    assert Waiting(s, q) == [];
    step := Miss(t, PushedTo(s, q));
  }

  /** A producer's clock can read any time, one before its next message is due among them. */
  lemma EndScan(c: Setup, s: State, t: Thread) returns (step: Step)
    requires c.Runs(t) && PcOf(s, t).Scanning? && PcOf(s, t).i >= InputCount(c, t)
    ensures Enabled(c, s, step) && UpToDate(s, step, t)
    ensures Apply(c, s, step) == s.(pc := s.pc[t := Checking])
  {
    step := Wrap(t, if t.Producer? then Get(s.due, t.p, 0) - 1 else 0);
  }

  /** The thread's next test finds the input empty, or ends the scan. */
  lemma ScanOn(c: Setup, s: State, t: Thread) returns (step: Step, s': State)
    requires c.Runs(t) && PcOf(s, t).Scanning? && NothingAhead(c, s, t)
    ensures Enabled(c, s, step) && UpToDate(s, step, t) && s' == Apply(c, s, step)
    ensures s' == s.(pc := s.pc[t := if PcOf(s, t).i < InputCount(c, t) then Scanning(PcOf(s, t).i + 1) else Checking])
    ensures NothingAhead(c, s', t)
  {
    hide Enabled, Apply;
    if PcOf(s, t).i < InputCount(c, t) {
      step := FindNothing(c, s, t);
    } else {
      step := EndScan(c, s, t);
    }
    s' := Apply(c, s, step);
    assert forall j: nat :: Waiting(s', Input(t, j)) == Waiting(s, Input(t, j));
  }

  lemma DrainedStays(s: State, s': State)
    requires Drained(s) && s'.at == s.at && forall t :: PcOf(s', t).Counting? ==> PcOf(s, t).Counting?
    ensures Drained(s')
  {
    assert forall q :: Waiting(s', q) == Waiting(s, q);
  }

  /** The first `n` threads in stop order are brought to their running test, unless they have exited. */
  lemma {:induction false} AllToTest(c: Setup, s: State, n: nat) returns (steps: seq<Step>, s': State)
    requires Shape(c, s) && Drained(s) && n <= ThreadCount(c)
    ensures Execute(c, s, steps) == Some(s') && s'.at == s.at && Shape(c, s') && Drained(s')
    ensures forall t :: PcOf(s', t) == PcOf(s, t) || (PcOf(s', t).Checking? && !PcOf(s, t).Exited?)
    ensures forall i :: 0 <= i < n ==> PcOf(s', StopOrder(c, i)).Checking? || PcOf(s', StopOrder(c, i)).Exited?
  {
    if n == 0 {
      steps, s' := [], s;
    } else {
      var first, s1 := AllToTest(c, s, n - 1);
      var t := StopOrder(c, n - 1);
      OrderPosition(c, n - 1);
      if PcOf(s1, t).Exited? {
        steps, s' := first, s1;
      } else {
        IdleWhenDrained(c, s1, t);
        var more, s2 := ToTest(c, s1, t);
        RunShape(c, s1, more, s2);
        DrainedStays(s1, s2);
        ExecuteAppend(c, s, first, more);
        steps, s' := first + more, s2;
      }
    }
  }

  lemma IdleWhenDrained(c: Setup, s: State, t: Thread)
    requires HandsOk(c, s) && Drained(s)
    ensures !PcOf(s, t).Sending? && !PcOf(s, t).Counting?
  {
    assert |Content(s.at, Hand(t))| == if PcOf(s, t).Sending? then 1 else 0;
  }

  /** Who has exited comes before who has not. */
  lemma {:induction false} FirstLive(c: Setup, s: State, n: nat) returns (i: nat)
    requires StopsOk(c, s) && n <= ThreadCount(c)
    ensures i <= n
    ensures forall j :: 0 <= j < i ==> PcOf(s, StopOrder(c, j)).Exited?
    ensures forall j :: i <= j < n ==> !PcOf(s, StopOrder(c, j)).Exited?
  {
    if n == 0 {
      i := 0;
    } else if PcOf(s, StopOrder(c, n - 1)).Exited? {
      i := n;
      assert StopOrder(c, n - 1) in s.stopped;
    } else {
      i := FirstLive(c, s, n - 1);
    }
  }

  lemma NothingWaiting(s: State)
    requires Drained(s)
    ensures Mass(InQueue, s.at) == 0
  {
    forall place ensures Content(s.at, place) == [] || forall m :: WeightOf(InQueue, place, m) == 0 {
      assert place.Queue? ==> Waiting(s, place.q) == [];
    }
    MassZero(InQueue, s.at);
  }

  lemma StopCleanly(c: Setup, s: State) returns (steps: seq<Step>, s': State)
    requires Reachable(c, s) && StagesRun(s)
    ensures Execute(c, s, steps) == Some(s') && AllExited(c, s') && Mass(InQueue, s'.at) == 0
    ensures Produced(c, s') == TotalDelivered(c, s') + MessagesLost(s') + Mass(DroppedByProcessors, s'.at)
  {
    ReachableShape(c, s);
    var drain, s1 := Drain(c, s);
    RunShape(c, s, drain, s1);
    var settle, s2 := AllToTest(c, s1, ThreadCount(c));
    ExecuteAppend(c, s, drain, settle);
    NowReachable(c, s, drain + settle, s2);
    var i := FirstLive(c, s2, ThreadCount(c));
    var stop, s3 := StopFrom(c, s2, i, ThreadCount(c));
    ExecuteAppend(c, s, drain + settle, stop);
    NowReachable(c, s, drain + settle + stop, s3);
    NothingWaiting(s2);
    FinalFigures(c, s3);
    steps, s' := drain + settle + stop, s3;
  }

  lemma NowReachable(c: Setup, s: State, more: seq<Step>, s': State)
    requires Reachable(c, s) && Execute(c, s, more) == Some(s')
    ensures Reachable(c, s') && StopsOk(c, s')
  {
    var steps :| Execute(c, INITIAL, steps) == Some(s);
    ExecuteAppend(c, INITIAL, steps, more);
    RunStops(c, INITIAL, steps + more, s');
  }

  /** Some run leads from one state to the other. */
  ghost predicate LeadsTo(c: Setup, s: State, s': State) {
    exists steps :: Execute(c, s, steps) == Some(s')
  }

  /**
   Whatever has happened so far, as long as no stage has been stopped, the run can go on to an orderly end with
   nothing left in a queue: what is produced is delivered, counted as lost, or dropped by a processor.
   */
  lemma CanStopCleanly(c: Setup, s: State)
    requires Reachable(c, s) && (forall t: Thread :: !t.Producer? ==> t !in s.stopped)
    ensures exists s' :: LeadsTo(c, s, s') && AllExited(c, s') && Mass(InQueue, s'.at) == 0 &&
                         Produced(c, s') == TotalDelivered(c, s') + MessagesLost(s') + Mass(DroppedByProcessors, s'.at)
  {
    NotStoppedRuns(c, s);
    var steps, s' := StopCleanly(c, s);
    assert LeadsTo(c, s, s');
  }
}
