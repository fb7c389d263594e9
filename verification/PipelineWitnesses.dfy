/**
 Runs that show how far the guarantees go: one in which every message is delivered in order and a violation is
 reported all the same, those that lose a message for want of room or of a route, and one that leaves a message
 behind in its last pass for a single stale view.
 */
module PipelineWitnesses {
  import opened MachineWords
  import opened Wrappers
  import opened Messages
  import opened Sums
  import opened Pipeline
  import opened PipelineInvariant
  import opened PipelineOrder
  import opened PipelineDelivery
  import opened PipelineAccounting
  import opened PipelineReport
  import opened PipelineDrain
  import opened PipelineFairness
  import opened PipelineStopOrder
  import opened PipelineStranding
  import opened PipelineShutdown
  import opened PipelineNoLoss
  import opened PipelineViolations

  /** A producer passes its running test and makes a message as soon as one is due. */
  lemma MakeOne(c: Setup, s: State, p: nat, msgType: nat) returns (steps: seq<Step>, s': State, m: Message)
    requires p < c.config.producers && Shape(c, s) && PcOf(s, Producer(p)) == Checking && s.stopped == {}
    requires msgType <= 3 && |GeneratedBy(s, p)| + 2 < TWO_TO_THE_64
    ensures Execute(c, s, steps) == Some(s') && Shape(c, s') && AllCurrent(c, s, steps)
    ensures m.msgType == msgType && PcOf(s', Producer(p)) == Sending(0, 0) && s'.stopped == {} && s'.pushed == s.pushed
    ensures Content(s'.at, Hand(Producer(p))) == [m] && Waiting(s', FromProducer(p)) == Waiting(s, FromProducer(p))
    ensures forall r: nat :: GeneratedBy(s', r) == if r == p then GeneratedBy(s, p) + [m] else GeneratedBy(s, r)
    ensures forall t :: t != Producer(p) ==> PcOf(s', t) == PcOf(s, t)
  {
    hide Shape, Enabled, Apply, Execute, Current;
    NothingInHand(c, s, Producer(p));
    var check, make := Check(Producer(p)), Generate(p, msgType, Get(s.due, p, 0));
    m := Fresh(msgType, p, |GeneratedBy(s, p)| + 1, Get(s.due, p, 0));
    s' := CheckThenMake(c, s, p, m);
    TwoSteps(c, s, check, make);
    steps := [check, make];
  }

  lemma NothingInHand(c: Setup, s: State, t: Thread)
    requires Shape(c, s) && PcOf(s, t) == Checking
    ensures Content(s.at, Hand(t)) == []
  {
    assert |Content(s.at, Hand(t))| == if PcOf(s, t).Sending? then 1 else 0;
  }

  lemma CheckThenMake(c: Setup, s: State, p: nat, m: Message) returns (s': State)
    requires p < c.config.producers && PcOf(s, Producer(p)) == Checking && s.stopped == {}
    requires m.msgType <= 3 && |GeneratedBy(s, p)| + 2 < TWO_TO_THE_64 && Content(s.at, Hand(Producer(p))) == []
    requires m == Fresh(m.msgType, p, |GeneratedBy(s, p)| + 1, Get(s.due, p, 0))
    ensures var (check, make) := (Check(Producer(p)), Generate(p, m.msgType, m.timestamp));
            && Enabled(c, s, check) && Enabled(c, Apply(c, s, check), make)
            && Current(c, s, check) && Current(c, Apply(c, s, check), make)
            && s' == Apply(c, Apply(c, s, check), make)
    ensures s' == s.(at := s.at[Hand(Producer(p)) := [m]], pc := s.pc[Producer(p) := Sending(0, 0)],
                     generated := s.generated[p := GeneratedBy(s, p) + [m]],
                     due := s.due[p := m.timestamp + c.Interval()])
  {
    var s1 := Apply(c, s, Check(Producer(p)));
    s' := Apply(c, s1, Generate(p, m.msgType, m.timestamp));
    assert [] + [m] == [m];
    assert s1.pc[Producer(p) := Sending(0, 0)] == s.pc[Producer(p) := Sending(0, 0)];
  }

  /** The same, and its first try to send it succeeds: its queue has had room for everything so far. */
  lemma MakeAndSend(c: Setup, s: State, p: nat, msgType: nat) returns (steps: seq<Step>, s': State, m: Message)
    requires p < c.config.producers && Shape(c, s) && PcOf(s, Producer(p)) == Checking && s.stopped == {}
    requires msgType <= 3 && |GeneratedBy(s, p)| + 2 < TWO_TO_THE_64 && PushedTo(s, FromProducer(p)) < c.capacity
    ensures Execute(c, s, steps) == Some(s') && Shape(c, s') && AllCurrent(c, s, steps)
    ensures m.msgType == msgType && PcOf(s', Producer(p)) == Checking && s'.stopped == {}
    ensures forall r: nat :: GeneratedBy(s', r) == if r == p then GeneratedBy(s, p) + [m] else GeneratedBy(s, r)
    ensures PushedTo(s', FromProducer(p)) == PushedTo(s, FromProducer(p)) + 1
    ensures Waiting(s', FromProducer(p)) == Waiting(s, FromProducer(p)) + [m]
    ensures forall t :: t != Producer(p) ==> PcOf(s', t) == PcOf(s, t)
  {
    var make, s1, m1 := MakeOne(c, s, p, msgType);
    var send, s2 := SendIt(c, s1, p);
    ExecuteAppend(c, s, make, send);
    AllCurrentAppend(c, s, make, s1, send);
    steps, s', m := make + send, s2, m1;
  }

  lemma SendIt(c: Setup, s: State, p: nat) returns (steps: seq<Step>, s': State)
    requires p < c.config.producers && Shape(c, s) && PcOf(s, Producer(p)) == Sending(0, 0)
    requires PushedTo(s, FromProducer(p)) < c.capacity
    ensures Execute(c, s, steps) == Some(s') && Shape(c, s') && AllCurrent(c, s, steps)
    ensures PcOf(s', Producer(p)) == Checking && s'.stopped == s.stopped && s'.generated == s.generated
    ensures PushedTo(s', FromProducer(p)) == PushedTo(s, FromProducer(p)) + 1
    ensures Waiting(s', FromProducer(p)) == Waiting(s, FromProducer(p)) + Content(s.at, Hand(Producer(p)))
    ensures forall t :: t != Producer(p) ==> PcOf(s', t) == PcOf(s, t)
  {
    hide Shape, Enabled, Apply, Execute, Current;
    var q := FromProducer(p);
    var m := RoomForOne(c, s, p);
    s' := PushThenCount(c, s, p, m);
    TwoSteps(c, s, Push(Producer(p), PoppedFrom(s, q)), Count(Producer(p)));
    steps := [Push(Producer(p), PoppedFrom(s, q)), Count(Producer(p))];
  }

  lemma RoomForOne(c: Setup, s: State, p: nat) returns (m: Message)
    requires Shape(c, s) && PcOf(s, Producer(p)).Sending?
    ensures Content(s.at, Hand(Producer(p))) == [m]
    ensures |Waiting(s, FromProducer(p))| <= PushedTo(s, FromProducer(p))
  {
    assert |Content(s.at, Hand(Producer(p)))| == 1;
    m := Content(s.at, Hand(Producer(p)))[0];
  }

  lemma PushThenCount(c: Setup, s: State, p: nat, m: Message) returns (s': State)
    requires p < c.config.producers && PcOf(s, Producer(p)) == Sending(0, 0)
    requires Content(s.at, Hand(Producer(p))) == [m] && PushedTo(s, FromProducer(p)) < c.capacity
    requires |Waiting(s, FromProducer(p))| <= PushedTo(s, FromProducer(p))
    ensures var (push, count) := (Push(Producer(p), PoppedFrom(s, FromProducer(p))), Count(Producer(p)));
            && Enabled(c, s, push) && Enabled(c, Apply(c, s, push), count)
            && Current(c, s, push) && Current(c, Apply(c, s, push), count)
            && s' == Apply(c, Apply(c, s, push), count)
    ensures PcOf(s', Producer(p)) == Checking && s'.stopped == s.stopped && s'.generated == s.generated
    ensures PushedTo(s', FromProducer(p)) == PushedTo(s, FromProducer(p)) + 1
    ensures Waiting(s', FromProducer(p)) == Waiting(s, FromProducer(p)) + [m]
    ensures forall t :: t != Producer(p) ==> PcOf(s', t) == PcOf(s, t)
  {
    var s1 := Apply(c, s, Push(Producer(p), PoppedFrom(s, FromProducer(p))));
    s' := Apply(c, s1, Count(Producer(p)));
  }

  lemma TwoSteps(c: Setup, s: State, a: Step, b: Step)
    requires Shape(c, s) && Enabled(c, s, a) && Enabled(c, Apply(c, s, a), b)
    requires Current(c, s, a) && Current(c, Apply(c, s, a), b)
    ensures var s' := Apply(c, Apply(c, s, a), b);
            Execute(c, s, [a, b]) == Some(s') && Shape(c, s') && AllCurrent(c, s, [a, b])
  {
    hide Enabled, Apply, Shape, Current;
    var s1 := Apply(c, s, a);
    StepShape(c, s, a);
    StepShape(c, s1, b);
    ExecuteFirst(c, s1, b, []);
    ExecuteFirst(c, s, a, [b]);
    assert [a] + [b] == [a, b] && [b] + [] == [b] && [a, b][1..] == [b] && [b][1..] == [];
    assert AllCurrent(c, s1, [b]);
  }

  /** Every producer that is configured can make messages of every type and get them into its own queue. */
  lemma EveryProducerSends(c: Setup, p: nat, msgType: nat)
    requires p < c.config.producers && c.capacity > 0 && msgType <= 3
    ensures exists s, m :: Reachable(c, s) && Waiting(s, FromProducer(p)) == [m] &&
                           m.producerId == p && m.msgType == msgType && m.sequenceNumber == 1
  {
    InitialShape(c);
    hide Execute, Shape;
    var steps, s, m := MakeAndSend(c, INITIAL, p, msgType);
    assert Reachable(c, s);
    FirstIsNumbered(c, s, p, m);
  }

  lemma FirstIsNumbered(c: Setup, s: State, p: nat, m: Message)
    requires Shape(c, s) && GeneratedBy(s, p) == [m]
    ensures m.producerId == p && m.sequenceNumber == 1 && m == Unstamped(m)
  {
    assert MadeBy(p, 0, GeneratedBy(s, p)[0]);
  }

  /** A run without new messages makes none. */
  lemma {:induction false} QuietMakesNothing(c: Setup, s: State, steps: seq<Step>, s': State)
    requires Execute(c, s, steps) == Some(s') && Quiet(steps)
    ensures forall p: nat :: GeneratedBy(s', p) == GeneratedBy(s, p)
    decreases |steps|
  {
    if steps != [] {
      GeneratedAfter(c, s, steps[0]);
      assert forall i :: 0 <= i < |steps| - 1 ==> steps[1..][i] == steps[i + 1];
      QuietMakesNothing(c, Apply(c, s, steps[0]), steps[1..], s');
    }
  }

  /** Three messages of the types 0, 1, 0: three stretches of two types. */
  lemma ThereAndBack(a: Message, b: Message, d: Message)
    requires a.msgType == 0 && b.msgType == 1 && d.msgType == 0
    ensures TypeRuns([a, b, d]) == 3 && TypesIn([a, b, d], 4) == 2
    ensures TypeRuns([]) == 0 && TypesIn([], 4) == 0
  {
    RunsOfOneMore([], a);
    RunsOfOneMore([a], b);
    RunsOfOneMore([a, b], d);
    assert [] + [a] == [a] && [a] + [b] == [a, b] && [a, b] + [d] == [a, b, d];
    TypesOfOneMore([], a, 4);
    TypesOfOneMore([a], b, 4);
    TypesOfOneMore([a, b], d, 4);
    assert [a, b][0].msgType == 0;
    SumZero(4, t => OneIfOccurs([], t));
  }

  lemma ThreeMade(c: Setup) returns (steps: seq<Step>, s: State, a: Message, b: Message, d: Message)
    requires c.Producers() > 0 && c.capacity >= 3
    ensures Execute(c, INITIAL, steps) == Some(s) && Shape(c, s) && StagesRun(s)
    ensures a.msgType == 0 && b.msgType == 1 && d.msgType == 0
    ensures GeneratedBy(s, 0) == [a, b, d] && forall p: nat :: p > 0 ==> GeneratedBy(s, p) == []
  {
    InitialShape(c);
    hide Shape, Execute;
    var steps1, s1, a1 := MakeAndSend(c, INITIAL, 0, 0);
    var steps2, s2, b1 := MakeAndSend(c, s1, 0, 1);
    var steps3, s3, d1 := MakeAndSend(c, s2, 0, 0);
    ExecuteAppend(c, INITIAL, steps1, steps2);
    ExecuteAppend(c, INITIAL, steps1 + steps2, steps3);
    steps, s, a, b, d := steps1 + steps2 + steps3, s3, a1, b1, d1;
    assert [] + [a] + [b] + [d] == [a, b, d];
  }

  lemma CountsOfThree(c: Setup, s: State, a: Message, b: Message, d: Message)
    requires c.Producers() > 0 && a.msgType == 0 && b.msgType == 1 && d.msgType == 0
    requires GeneratedBy(s, 0) == [a, b, d] && forall p: nat :: p > 0 ==> GeneratedBy(s, p) == []
    ensures Generated(c, s) == 3
    ensures SumTo(c.Producers(), p => TypeRuns(GeneratedBy(s, p))) == 3
    ensures SumTo(c.Producers(), p => TypesIn(GeneratedBy(s, p), 4)) == 2
  {
    ThereAndBack(a, b, d);
    SumOnly(c.Producers(), p => |GeneratedBy(s, p)|, 0);
    SumOnly(c.Producers(), p => TypeRuns(GeneratedBy(s, p)), 0);
    SumOnly(c.Producers(), p => TypesIn(GeneratedBy(s, p), 4), 0);
  }

  /** With any validated configuration whose routes exist: three messages, all delivered, and one violation. */
  lemma ViolationInPerfectRun(c: Setup)
    requires c.config.Validate() && RoutesExist(c) && c.capacity >= 3
    ensures exists s :: Reachable(c, s) && NothingDropped(s) && Drained(s) &&
                        Generated(c, s) == 3 && TotalViolations(c, s) == 1
  {
    var s := ThreeDelivered(c);
  }

  lemma ThreeDelivered(c: Setup) returns (s: State)
    requires c.config.Validate() && RoutesExist(c) && c.capacity >= 3
    ensures Reachable(c, s) && NothingDropped(s) && Drained(s)
    ensures Generated(c, s) == 3 && TotalViolations(c, s) == 1
  {
    var made, s1, a, b, d := ThreeMade(c);
    var drain, s2 := Drain(c, s1);
    ExecuteAppend(c, INITIAL, made, drain);
    QuietMakesNothing(c, s1, drain, s2);
    s := s2;
    CountsOfThree(c, s, a, b, d);
    MadeHasRoute(c, s);
    SmallRunsLoseNothing(c, s);
    ViolationsOfPerfectRun(c, s);
  }

  // ----- One message too many -----

  /** Producer 0 makes and sends `n` messages. */
  lemma {:induction false} MakeMany(c: Setup, n: nat) returns (steps: seq<Step>, s: State)
    requires c.Producers() > 0 && n <= c.capacity && n + 2 < TWO_TO_THE_64
    ensures Execute(c, INITIAL, steps) == Some(s) && Shape(c, s)
    ensures PcOf(s, Producer(0)) == Checking && s.stopped == {} && PushedTo(s, FromProducer(0)) == n
    ensures forall p: nat :: |GeneratedBy(s, p)| == if p == 0 then n else 0
  {
    if n == 0 {
      InitialShape(c);
      steps, s := [], INITIAL;
    } else {
      var before, s0 := MakeMany(c, n - 1);
      hide Shape, Execute;
      var last, s1, m := MakeAndSend(c, s0, 0, 0);
      ExecuteAppend(c, INITIAL, before, last);
      steps, s := before + last, s1;
    }
  }

  /** The push is refused until the message is dropped. */
  lemma {:induction false} RefuseToTheEnd(c: Setup, s: State) returns (steps: seq<Step>, s': State)
    requires c.Producers() > 0 && Shape(c, s) && PcOf(s, Producer(0)).Sending?
    requires PushedTo(s, FromProducer(0)) == c.capacity
    ensures Execute(c, s, steps) == Some(s') && s'.generated == s.generated
    ensures Content(s'.at, Dropped(Producer(0), RetriesExhausted)) != []
    decreases 100 - PcOf(s, Producer(0)).tries
  {
    assert |Content(s.at, Hand(Producer(0)))| == 1 && PcOf(s, Producer(0)).tries < 100;
    assert |Waiting(s, FromProducer(0))| <= PushedTo(s, FromProducer(0));
    var refuse := Refuse(Producer(0), 0);
    var s1 := Apply(c, s, refuse);
    if PcOf(s, Producer(0)).tries + 1 < 100 {
      StepShape(c, s, refuse);
      steps, s' := RefuseToTheEnd(c, s1);
    } else {
      steps, s' := [], s1;
    }
    ExecuteFirst(c, s, refuse, steps);
    steps := [refuse] + steps;
  }

  /**
   The bound of `SmallRunsLoseNothing` is the best one: with any configuration, a run that makes one message more can
   lose it.
   */
  lemma OneMoreIsTooMany(c: Setup)
    requires c.Producers() > 0 && c.capacity + 2 < TWO_TO_THE_64
    ensures exists s :: Reachable(c, s) && Generated(c, s) == c.capacity + 1 && !NothingDropped(s)
  {
    var s := LoseOne(c);
  }

  lemma LoseOne(c: Setup) returns (s: State)
    requires c.Producers() > 0 && c.capacity + 2 < TWO_TO_THE_64
    ensures Reachable(c, s) && Generated(c, s) == c.capacity + 1 && !NothingDropped(s)
  {
    hide Shape, Execute;
    var many, s1 := MakeMany(c, c.capacity);
    var make, s2, m := MakeOne(c, s1, 0, 0);
    var refuse, s3 := RefuseToTheEnd(c, s2);
    ExecuteAppend(c, INITIAL, many, make);
    ExecuteAppend(c, INITIAL, many + make, refuse);
    s := s3;
    forall p: nat ensures |GeneratedBy(s, p)| == if p == 0 then c.capacity + 1 else 0 {
      assert GeneratedBy(s, p) == GeneratedBy(s2, p);
      assert |GeneratedBy(s1, p)| == if p == 0 then c.capacity else 0;
    }
    SumOnly(c.Producers(), p => |GeneratedBy(s, p)|, 0);
  }

  // ----- Exactly when nothing can be lost -----

  /** A message that was delivered had a processor and a strategy to go to. */
  lemma DeliveredHadARoute(c: Setup, s: State, k: Key)
    requires Reachable(c, s) && OfKey(Content(s.at, Delivered(c.config.StrategyFor(k.msgType))), k) != []
    ensures c.config.ProcessorFor(k.msgType) < c.Processors() && c.config.StrategyFor(k.msgType) < c.Strategies()
  {
    ReachableShape(c, s);
    var place := Delivered(c.config.StrategyFor(k.msgType));
    var i := OneOfKey(Content(s.at, place), k);
    assert MayBeAt(c, place, Content(s.at, place)[i]);
  }

  /** One message of a type without a route is made, and everything is dealt with: it was dropped. */
  lemma LoseOnTheWay(c: Setup, msgType: nat) returns (s: State)
    requires c.Producers() > 0 && c.capacity > 0 && msgType <= 3
    requires !HasRoute(c, msgType)
    ensures Reachable(c, s) && Generated(c, s) == 1 && !NothingDropped(s)
  {
    InitialShape(c);
    hide Execute;
    var make, s1, m := MakeAndSend(c, INITIAL, 0, msgType);
    var drain, s2 := Drain(c, s1);
    ExecuteAppend(c, INITIAL, make, drain);
    QuietMakesNothing(c, s1, drain, s2);
    s := s2;
    SumOnly(c.Producers(), p => |GeneratedBy(s, p)|, 0);
    var k := Key(0, msgType);
    assert OfKey(GeneratedBy(s, 0), k) != [] by {
      assert GeneratedBy(s1, 0) == [m] && MadeBy(0, 0, GeneratedBy(s1, 0)[0]);
    }
    if NothingDropped(s) {
      DrainedIsDelivered(c, s, k);
      DeliveredHadARoute(c, s, k);
      assert false;
    }
  }

  /**
   No run that makes at most `n` messages drops any, exactly if every type has a route and a queue holds `n`
   messages.
   */
  lemma NothingLostIff(c: Setup, n: nat)
    requires c.Producers() > 0 && 1 <= n && n + 1 < TWO_TO_THE_64
    ensures (forall s :: Reachable(c, s) && Generated(c, s) <= n ==> NothingDropped(s)) <==>
            RoutesExist(c) && n <= c.capacity
  {
    if RoutesExist(c) && n <= c.capacity {
      forall s | Reachable(c, s) && Generated(c, s) <= n ensures NothingDropped(s) {
        MadeHasRoute(c, s);
        SmallRunsLoseNothing(c, s);
      }
    } else if n > c.capacity {
      var s := LoseOne(c);
    } else {
      var t: nat :| t <= 3 && !HasRoute(c, t);
      var s := LoseOnTheWay(c, t);
    }
  }

  /** With a route and room, one message made by any producer, and everything dealt with: it was delivered. */
  lemma MakeAndDeliver(c: Setup, p: nat, msgType: nat) returns (steps: seq<Step>, s: State)
    requires p < c.config.producers && c.capacity > 0 && msgType <= 3 && HasRoute(c, msgType)
    ensures Execute(c, INITIAL, steps) == Some(s) && AllCurrent(c, INITIAL, steps)
    ensures |OfKey(Content(s.at, Delivered(c.config.StrategyFor(msgType))), Key(p, msgType))| == 1
  {
    InitialShape(c);
    hide Execute, Shape, Drained, StagesRun;
    var make, s1, m := MakeAndSend(c, INITIAL, p, msgType);
    var drain, s2 := Drain(c, s1);
    ExecuteAppend(c, INITIAL, make, drain);
    AllCurrentAppend(c, INITIAL, make, s1, drain);
    QuietMakesNothing(c, s1, drain, s2);
    steps, s := make + drain, s2;
    assert Reachable(c, s);
    SumOnly(c.Producers(), r => |GeneratedBy(s, r)|, p);
    FirstIsNumbered(c, s1, p, m);
    SmallRunsLoseNothing(c, s);
    DrainedIsDelivered(c, s, Key(p, msgType));
    assert OfKey([m], Key(p, msgType)) == [m];
  }

  // ----- One stale view in the last pass -----

  /**
   A whole pass of the stage 1 router with all producers joined. Its first step finds an input empty; all later ones
   see their inputs as they are. It leaves a message in the first input.
   */
  ghost predicate PassThatLeavesOne(c: Setup, s: State, pass: seq<Step>, s': State) {
    && PcOf(s, Router1) == Scanning(0)
    && (forall i: nat :: i < InputCount(c, Router1) ==> PcOf(s, Upstream(Router1, i)).Exited?)
    && pass != [] && pass[0].Miss? && pass[0].t == Router1 && Execute(c, s, pass) == Some(s')
    && UpToDateRun(c, Apply(c, s, pass[0]), pass[1..], Router1)
    && PcOf(s', Router1).Checking? && Waiting(s', FromProducer(0)) != []
  }

  /** The first message is made and sent, the producers are stopped, and the stage 1 router passes its running test. */
  lemma ToLastPass(c: Setup) returns (s: State)
    requires c.config.Validate() && c.capacity > 0
    ensures Reachable(c, s) && PcOf(s, Router1) == Scanning(0)
    ensures forall i: nat :: i < c.Producers() ==> PcOf(s, Producer(i)).Exited?
    ensures forall j :: c.Producers() < j < ThreadCount(c) ==> PcOf(s, StopOrder(c, j)).Checking?
    ensures forall q :: Waiting(s, q) != [] <==> q == FromProducer(0)
  {
    hide Execute, Enabled, Apply;
    var made, s1 := ProduceOne(c);
    var stops, s2 := StopFrom(c, s1, 0, c.Producers());
    ExecuteAppend(c, INITIAL, made, stops);
    assert StopOrder(c, c.Producers()) == Router1;
    s := PassTest(c, s2, Router1);
    ExecuteAppend(c, INITIAL, made + stops, [Check(Router1)]);
    forall i: nat | i < c.Producers() ensures PcOf(s, Producer(i)).Exited? {
      assert PcOf(s2, StopOrder(c, i)).Exited?;
    }
    forall j | c.Producers() < j < ThreadCount(c) ensures PcOf(s, StopOrder(c, j)).Checking? {
      OrderPosition(c, j);
    }
    assert forall q :: Waiting(s, q) == Waiting(s1, q);
  }

  lemma PassTest(c: Setup, s: State, t: Thread) returns (s': State)
    requires c.Runs(t) && PcOf(s, t).Checking? && t !in s.stopped
    ensures Execute(c, s, [Check(t)]) == Some(s') && s' == s.(pc := s.pc[t := Scanning(0)])
  {
    s' := Apply(c, s, Check(t));
    ExecuteFirst(c, s, Check(t), []);
    assert [Check(t)] + [] == [Check(t)];
  }

  /** Finding the first input empty though there is a message, with a view from before it was pushed. */
  lemma StaleMiss(c: Setup, s: State) returns (step: Step, s': State)
    requires Shape(c, s) && c.Producers() > 0 && PcOf(s, Router1) == Scanning(0)
    ensures step.Miss? && step.t == Router1 && Enabled(c, s, step) && s' == Apply(c, s, step)
    ensures s' == s.(pc := s.pc[Router1 := Scanning(1)])
  {
    assert |Waiting(s, FromProducer(0))| <= PushedTo(s, FromProducer(0));
    step := Miss(Router1, PoppedFrom(s, FromProducer(0)));
    s' := Apply(c, s, step);
  }

  lemma LastPass(c: Setup, s: State) returns (pass: seq<Step>, s': State)
    requires Shape(c, s) && c.Producers() > 0 && PcOf(s, Router1) == Scanning(0)
    requires forall i: nat :: i < c.Producers() ==> PcOf(s, Producer(i)).Exited?
    requires forall q :: Waiting(s, q) != [] <==> q == FromProducer(0)
    ensures PassThatLeavesOne(c, s, pass, s')
    ensures s'.at == s.at && forall t :: t != Router1 ==> PcOf(s', t) == PcOf(s, t)
  {
    hide Execute, Enabled, Apply;
    var step, s1 := StaleMiss(c, s);
    assert forall q :: Waiting(s1, q) == Waiting(s, q);
    var rest;
    rest, s' := ToTest(c, s1, Router1);
    assert forall q :: Waiting(s', q) == Waiting(s, q);
    ExecuteFirst(c, s, step, rest);
    pass := [step] + rest;
    assert pass[1..] == rest;
  }

  /**
   One stale view is enough to leave a message behind for good: with any validated configuration some run comes to
   such a pass, after which every thread is stopped and joined.
   */
  lemma OneStaleMiss(c: Setup)
    requires c.config.Validate() && c.capacity > 0
    ensures exists s, pass, s', end :: Reachable(c, s) && PassThatLeavesOne(c, s, pass, s') &&
                                       LeadsTo(c, s', end) && AllExited(c, end) && Waiting(end, FromProducer(0)) != []
  {
    hide Execute, Enabled, Apply;
    var s := ToLastPass(c);
    ReachableShape(c, s);
    var pass, s' := LastPass(c, s);
    forall j | c.Producers() <= j < ThreadCount(c) ensures PcOf(s', StopOrder(c, j)).Checking? {
      OrderPosition(c, j);
    }
    assert forall j :: 0 <= j < c.Producers() ==> StopOrder(c, j) == Producer(j);
    var stops, end := StopFrom(c, s', c.Producers(), ThreadCount(c));
    assert Waiting(end, FromProducer(0)) == Waiting(s, FromProducer(0));
    assert LeadsTo(c, s', end);
  }
}
