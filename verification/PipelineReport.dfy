/** What the figures `main` prints after the stop sequence say, and what they leave out. */
module PipelineReport {
  import opened Wrappers
  import opened Messages
  import opened Sums
  import opened StrategyMonitor
  import opened Pipeline
  import opened PipelineFlow
  import opened PipelineInvariant
  import opened PipelineDelivery
  import opened PipelineAccounting

  /** "Total Produced". */
  ghost function Produced(c: Setup, s: State): nat {
    SumTo(c.Producers(), p => Counted(s, Producer(p), true))
  }

  /** "Total Processed". */
  ghost function Processed(c: Setup, s: State): nat {
    SumTo(c.Processors(), r => Counted(s, Processor(r), true))
  }

  /** "Total Delivered". */
  ghost function TotalDelivered(c: Setup, s: State): nat {
    SumTo(c.Strategies(), k => TallyAt(s, k).delivered)
  }

  /** "Messages Lost"; the test result is PASSED if it is zero. */
  function MessagesLost(s: State): nat {
    Counted(s, Router1, false) + Counted(s, Router2, false)
  }

  /** Increments not yet made. */
  ghost function OwedByProducers(c: Setup, s: State): nat {
    SumTo(c.Producers(), p => Pending(s, Producer(p), true))
  }

  ghost function OwedByProcessors(c: Setup, s: State): nat {
    SumTo(c.Processors(), r => Pending(s, Processor(r), true))
  }

  /** What the stage 2 router counts as an error, or is about to. */
  function Stage2Errors(s: State): nat {
    Counted(s, Router2, false) + Pending(s, Router2, false)
  }

  function OwedErrors(s: State): nat {
    Pending(s, Router1, false) + Pending(s, Router2, false)
  }

  /** Every message past its producer is in a queue, in a hand, delivered, or dropped by one of the later stages. */
  lemma PastProducers(c: Setup, s: State)
    requires Shape(c, s)
    ensures Mass(Beyond(8), s.at) ==
            Mass(IsDelivered, s.at) + Mass(InQueue, s.at) + Mass(HeldWithin(8), s.at) +
            Mass(DroppedBy(Router1), s.at) + Mass(DroppedBy(Router2), s.at) + Mass(DroppedByProcessors, s.at)
  {
    var lost := Plus(DroppedBy(Router1), Plus(DroppedBy(Router2), DroppedByProcessors));
    var live := Plus(IsDelivered, Plus(InQueue, HeldWithin(8)));
    forall place, m | m in Content(s.at, place)
      ensures WeightOf(Beyond(8), place, m) == WeightOf(Plus(live, lost), place, m)
    {
      var i :| 0 <= i < |Content(s.at, place)| && Content(s.at, place)[i] == m;
      assert MayBeAt(c, place, m);
      PlaceOnce(c, place, m);
    }
    MassAtMost(Beyond(8), Plus(live, lost), s.at);
    MassAtMost(Plus(live, lost), Beyond(8), s.at);
    MassPlus(live, lost, s.at);
    MassPlus(IsDelivered, Plus(InQueue, HeldWithin(8)), s.at);
    MassPlus(InQueue, HeldWithin(8), s.at);
    MassPlus(DroppedBy(Router1), Plus(DroppedBy(Router2), DroppedByProcessors), s.at);
    MassPlus(DroppedBy(Router2), DroppedByProcessors, s.at);
  }

  lemma PlusOfThree(a: Weight, b: Weight, d: Weight, place: Place, m: Message)
    ensures WeightOf(Plus(a, Plus(b, d)), place, m) ==
            WeightOf(a, place, m) + WeightOf(b, place, m) + WeightOf(d, place, m)
  {
    assert WeightOf(Plus(b, d), place, m) == WeightOf(b, place, m) + WeightOf(d, place, m);
  }

  lemma PlaceOnce(c: Setup, place: Place, m: Message)
    requires InRange(c, place)
    ensures WeightOf(Beyond(8), place, m) ==
            WeightOf(Plus(Plus(IsDelivered, Plus(InQueue, HeldWithin(8))),
                          Plus(DroppedBy(Router1), Plus(DroppedBy(Router2), DroppedByProcessors))), place, m)
  {
    PlusOfThree(IsDelivered, InQueue, HeldWithin(8), place, m);
    PlusOfThree(DroppedBy(Router1), DroppedBy(Router2), DroppedByProcessors, place, m);
  }

  /** Every message past its processor is in a queue or hand after it, delivered, or dropped by the stage 2 router. */
  lemma PastProcessors(c: Setup, s: State)
    requires Shape(c, s)
    ensures Mass(Beyond(4), s.at) == Mass(IsDelivered, s.at) + Mass(QueuedWithin(4), s.at) + Mass(HeldWithin(4), s.at) +
            Mass(DroppedBy(Router2), s.at)
  {
    hide WeightOf;
    var all := Plus(IsDelivered, Plus(QueuedWithin(4), Plus(HeldWithin(4), DroppedBy(Router2))));
    forall place, m | m in Content(s.at, place) ensures WeightOf(Beyond(4), place, m) == WeightOf(all, place, m) {
      var i :| 0 <= i < |Content(s.at, place)| && Content(s.at, place)[i] == m;
      assert MayBeAt(c, place, m);
      PlaceOncePast(c, place, m);
    }
    MassAtMost(Beyond(4), all, s.at);
    MassAtMost(all, Beyond(4), s.at);
    MassPlus(IsDelivered, all.b, s.at);
    MassPlus(QueuedWithin(4), all.b.b, s.at);
    MassPlus(HeldWithin(4), DroppedBy(Router2), s.at);
  }

  lemma PlaceOncePast(c: Setup, place: Place, m: Message)
    requires InRange(c, place)
    ensures WeightOf(Beyond(4), place, m) ==
            WeightOf(Plus(IsDelivered, Plus(QueuedWithin(4), Plus(HeldWithin(4), DroppedBy(Router2)))), place, m)
  {
    PlusOfThree(QueuedWithin(4), HeldWithin(4), DroppedBy(Router2), place, m);
  }

  lemma TalliedIsDelivered(c: Setup, s: State)
    requires AccountInv(c, s)
    ensures TotalDelivered(c, s) == Mass(IsDelivered, s.at)
  {
    forall k | 0 <= k < c.Strategies() ensures TallyAt(s, k).delivered == DeliveredBy(s, k) {
      ExpectedIsLastPlusOne(Content(s.at, Delivered(k)), Key(0, 0));
    }
    SumEqual(c.Strategies(), k => TallyAt(s, k).delivered, k => DeliveredBy(s, k));
  }

  lemma CountedIsSent(c: Setup, s: State)
    requires AccountInv(c, s)
    ensures Produced(c, s) + OwedByProducers(c, s) == SentByProducers(c, s)
    ensures Processed(c, s) + OwedByProcessors(c, s) == SentByProcessors(c, s)
  {
    forall p | 0 <= p < c.Producers()
      ensures PushedTo(s, FromProducer(p)) == Counted(s, Producer(p), true) + Pending(s, Producer(p), true)
    {
      assert Counted(s, Producer(p), true) + Pending(s, Producer(p), true) == SentBy(s, Producer(p));
    }
    SumAdd(c.Producers(), p => Counted(s, Producer(p), true), p => Pending(s, Producer(p), true),
           p => PushedTo(s, FromProducer(p)));
    forall r | 0 <= r < c.Processors()
      ensures PushedTo(s, FromProcessor(r)) == Counted(s, Processor(r), true) + Pending(s, Processor(r), true)
    {
      assert Counted(s, Processor(r), true) + Pending(s, Processor(r), true) == SentBy(s, Processor(r));
    }
    SumAdd(c.Processors(), r => Counted(s, Processor(r), true), r => Pending(s, Processor(r), true),
           r => PushedTo(s, FromProcessor(r)));
  }

  /** At every moment of every run, the produced messages are all somewhere. */
  lemma ProducedIsAccountedFor(c: Setup, s: State)
    requires Reachable(c, s)
    ensures Produced(c, s) + OwedByProducers(c, s) ==
            TotalDelivered(c, s) + MessagesLost(s) + OwedErrors(s) +
            Mass(DroppedByProcessors, s.at) + Mass(InQueue, s.at) + Mass(HeldWithin(8), s.at)
  {
    ReachableAccount(c, s);
    PastProducers(c, s);
    TalliedIsDelivered(c, s);
    CountedIsSent(c, s);
    RouterErrors(s);
  }

  /** At every moment of every run, the processed messages are all somewhere past the processors. */
  lemma ProcessedIsAccountedFor(c: Setup, s: State)
    requires Reachable(c, s)
    ensures Processed(c, s) + OwedByProcessors(c, s) ==
            TotalDelivered(c, s) + Stage2Errors(s) + Mass(QueuedWithin(4), s.at) + Mass(HeldWithin(4), s.at)
  {
    ReachableAccount(c, s);
    PastProcessors(c, s);
    TalliedIsDelivered(c, s);
    CountedIsSent(c, s);
    assert IsRouter(Router2);
  }

  lemma RouterErrors(s: State)
    requires CountsOk(s)
    ensures MessagesLost(s) + OwedErrors(s) == Mass(DroppedBy(Router1), s.at) + Mass(DroppedBy(Router2), s.at)
  {
    assert IsRouter(Router1) && IsRouter(Router2);
  }

  /**
   A producer's messages are those it counted or is about to count, the one in its hand, and those it dropped without
   counting.
   */
  lemma GeneratedIsProducedOrDropped(c: Setup, s: State, p: nat)
    requires Reachable(c, s)
    ensures |GeneratedBy(s, p)| == Counted(s, Producer(p), true) + Pending(s, Producer(p), true) +
            |Content(s.at, Hand(Producer(p)))| + Mass(DroppedBy(Producer(p)), s.at)
    ensures PcOf(s, Producer(p)) == Checking ==>
            |GeneratedBy(s, p)| == Counted(s, Producer(p), true) + Mass(DroppedBy(Producer(p)), s.at)
  {
    ReachableAccount(c, s);
    assert Counted(s, Producer(p), true) + Pending(s, Producer(p), true) == SentBy(s, Producer(p));
    assert |Content(s.at, Hand(Producer(p)))| == if PcOf(s, Producer(p)).Sending? then 1 else 0;
  }

  // ----- After the stop sequence -----

  ghost predicate AllExited(c: Setup, s: State) {
    forall i :: 0 <= i < ThreadCount(c) ==> PcOf(s, StopOrder(c, i)).Exited?
  }

  lemma PositionOf(c: Setup, t: Thread)
    requires c.Runs(t)
    ensures StopPosition(c, t) < ThreadCount(c) && StopOrder(c, StopPosition(c, t)) == t
  {
  }

  lemma ExitedHoldsNothing(c: Setup, s: State)
    requires Shape(c, s) && AllExited(c, s)
    ensures forall t :: Content(s.at, Hand(t)) == []
    ensures forall t, sent :: Pending(s, t, sent) == 0
  {
    forall t ensures Content(s.at, Hand(t)) == [] && !PcOf(s, t).Counting? {
      assert |Content(s.at, Hand(t))| == if PcOf(s, t).Sending? then 1 else 0;
      if c.Runs(t) {
        PositionOf(c, t);
        assert PcOf(s, StopOrder(c, StopPosition(c, t))).Exited?;
      }
    }
  }

  lemma NothingHeld(s: State)
    requires forall t :: Content(s.at, Hand(t)) == []
    ensures forall rank :: Mass(HeldWithin(rank), s.at) == 0
  {
    forall rank ensures Mass(HeldWithin(rank), s.at) == 0 {
      forall place ensures Content(s.at, place) == [] || forall m :: WeightOf(HeldWithin(rank), place, m) == 0 {
        assert place.Hand? ==> Content(s.at, Hand(place.t)) == [];
      }
      MassZero(HeldWithin(rank), s.at);
    }
  }

  lemma NothingOwed(c: Setup, s: State)
    requires forall t, sent :: Pending(s, t, sent) == 0
    ensures OwedByProducers(c, s) == 0 && OwedByProcessors(c, s) == 0 && OwedErrors(s) == 0
  {
    SumZero(c.Producers(), p => Pending(s, Producer(p), true));
    SumZero(c.Processors(), r => Pending(s, Processor(r), true));
  }

  /**
   When every thread has been stopped and joined, what was produced is what was delivered, what the routers
   count as lost, what the processors dropped without counting it, and what is left behind in queues. "Messages
   Lost" is the difference of the other two figures exactly when the last two are zero.
   */
  lemma FinalFigures(c: Setup, s: State)
    requires Reachable(c, s) && AllExited(c, s)
    ensures Produced(c, s) == TotalDelivered(c, s) + MessagesLost(s) + Mass(DroppedByProcessors, s.at) +
            Mass(InQueue, s.at)
    ensures MessagesLost(s) == Produced(c, s) - TotalDelivered(c, s) <==>
            Mass(DroppedByProcessors, s.at) == 0 && Mass(InQueue, s.at) == 0
  {
    ReachableShape(c, s);
    ProducedIsAccountedFor(c, s);
    ExitedHoldsNothing(c, s);
    NothingHeld(s);
    NothingOwed(c, s);
  }

  /**
   The figure "Total Processed" in the same report: what was delivered, what the stage 2 router counts as lost, and
   what is left in the queues after the processors.
   */
  lemma FinalProcessed(c: Setup, s: State)
    requires Reachable(c, s) && AllExited(c, s)
    ensures Processed(c, s) == TotalDelivered(c, s) + Counted(s, Router2, false) + Mass(QueuedWithin(4), s.at)
  {
    ReachableShape(c, s);
    ProcessedIsAccountedFor(c, s);
    ExitedHoldsNothing(c, s);
    NothingHeld(s);
    NothingOwed(c, s);
  }

  // ----- A run that passes and leaves a message behind -----

  lemma {:induction false} ExecuteAppend(c: Setup, s: State, a: seq<Step>, b: seq<Step>)
    ensures Execute(c, s, a + b) ==
            match Execute(c, s, a)
            case None => None
            case Some(s') => Execute(c, s', b)
    decreases |a|
  {
    if a == [] {
      assert a + b == b;
    } else {
      assert (a + b)[0] == a[0] && (a + b)[1..] == a[1..] + b;
      if Enabled(c, s, a[0]) {
        ExecuteAppend(c, Apply(c, s, a[0]), a[1..], b);
      }
    }
  }

  lemma ExecuteFirst(c: Setup, s: State, step: Step, rest: seq<Step>)
    requires Enabled(c, s, step)
    ensures Execute(c, s, [step] + rest) == Execute(c, Apply(c, s, step), rest)
  {
    assert ([step] + rest)[1..] == rest;
  }

  lemma OrderPosition(c: Setup, i: nat)
    requires i < ThreadCount(c)
    ensures c.Runs(StopOrder(c, i)) && StopPosition(c, StopOrder(c, i)) == i
  {
  }

  /** `main` can stop the threads in order up to thread `n` if each is about to test its flag; nothing else happens. */
  lemma {:induction false} StopFrom(c: Setup, s: State, i: nat, n: nat) returns (steps: seq<Step>, s': State)
    requires i <= n <= ThreadCount(c)
    requires forall j :: 0 <= j < i ==> PcOf(s, StopOrder(c, j)).Exited?
    requires forall j :: i <= j < n ==> PcOf(s, StopOrder(c, j)).Checking?
    ensures Execute(c, s, steps) == Some(s') && forall j :: 0 <= j < n ==> PcOf(s', StopOrder(c, j)).Exited?
    ensures forall j :: n <= j < ThreadCount(c) ==> PcOf(s', StopOrder(c, j)) == PcOf(s, StopOrder(c, j))
    ensures forall j :: n <= j < ThreadCount(c) ==>
              (StopOrder(c, j) in s'.stopped <==> StopOrder(c, j) in s.stopped)
    ensures s'.at == s.at && s'.counts == s.counts && s'.tallies == s.tallies && s'.generated == s.generated
    decreases n - i
  {
    if i == n {
      steps, s' := [], s;
    } else {
      var t := StopOrder(c, i);
      OrderPosition(c, i);
      var s1 := Apply(c, s, Stop(i));
      var s2 := Apply(c, s1, Check(t));
      forall j | 0 <= j < ThreadCount(c) && j != i ensures PcOf(s2, StopOrder(c, j)) == PcOf(s, StopOrder(c, j)) {
        OrderPosition(c, j);
      }
      steps, s' := StopFrom(c, s2, i + 1, n);
      ExecuteFirst(c, s1, Check(t), steps);
      ExecuteFirst(c, s, Stop(i), [Check(t)] + steps);
      steps := [Stop(i)] + ([Check(t)] + steps);
    }
  }

  /** With any validated configuration some run produces a message, delivers none, and is PASSED. */
  lemma PassedAndStranded(c: Setup)
    requires c.config.Validate() && c.capacity > 0
    ensures exists s :: Reachable(c, s) && AllExited(c, s) && MessagesLost(s) == 0 &&
                        Produced(c, s) == 1 && TotalDelivered(c, s) == 0 && Mass(InQueue, s.at) == 1
  {
    var s := StrandOne(c);
  }

  lemma StrandOne(c: Setup) returns (s: State)
    requires c.config.Validate() && c.capacity > 0
    ensures Reachable(c, s) && AllExited(c, s) && MessagesLost(s) == 0
    ensures Produced(c, s) == 1 && TotalDelivered(c, s) == 0 && Mass(InQueue, s.at) == 1
  {
    var made, s1 := ProduceOne(c);
    var stops, s2 := StopFrom(c, s1, 0, ThreadCount(c));
    ExecuteAppend(c, INITIAL, made, stops);
    s := s2;
    SumZero(c.Strategies(), k => TallyAt(s, k).delivered);
    SumZero(c.Producers(), p => 0);
    SumOneMore(c.Producers(), p => 0, p => Counted(s, Producer(p), true), 0, 1);
    FinalFigures(c, s);
    NoDrops(s);
  }

  lemma NoDrops(s: State)
    requires forall place :: Content(s.at, place) != [] ==> !place.Dropped?
    ensures Mass(DroppedByProcessors, s.at) == 0
  {
    MassZero(DroppedByProcessors, s.at);
  }

  lemma ProduceOne(c: Setup) returns (steps: seq<Step>, s: State)
    requires c.config.Validate() && c.capacity > 0
    ensures Execute(c, INITIAL, steps) == Some(s)
    ensures forall t :: PcOf(s, t) == Checking
    ensures forall place :: Content(s.at, place) != [] <==> place == Queue(FromProducer(0))
    ensures s.stopped == {}
    ensures s.tallies == map[] && s.counts == map[Counter(Producer(0), true) := 1]
  {
    var made := MadeFirst(c, Fresh(0, 0, 1, 0));
    MakeFirst(c);
    steps, s := SendFirst(c, made);
    ExecuteAppend(c, INITIAL, [Check(Producer(0)), Generate(0, 0, 0)], steps);
    steps := [Check(Producer(0)), Generate(0, 0, 0)] + steps;
  }

  lemma MakeFirst(c: Setup)
    requires c.config.Validate()
    ensures Execute(c, INITIAL, [Check(Producer(0)), Generate(0, 0, 0)]) == Some(MadeFirst(c, Fresh(0, 0, 1, 0)))
  {
    var m := Fresh(0, 0, 1, 0);
    assert [] + [m] == [m];
    var s1 := Apply(c, INITIAL, Check(Producer(0)));
    assert Apply(c, s1, Generate(0, 0, 0)) == MadeFirst(c, m);
    ExecuteFirst(c, s1, Generate(0, 0, 0), []);
    ExecuteFirst(c, INITIAL, Check(Producer(0)), [Generate(0, 0, 0)]);
    assert [Check(Producer(0))] + [Generate(0, 0, 0)] == [Check(Producer(0)), Generate(0, 0, 0)];
    assert [Generate(0, 0, 0)] + [] == [Generate(0, 0, 0)];
  }

  lemma SendFirst(c: Setup, made: State) returns (steps: seq<Step>, s: State)
    requires c.config.Validate() && c.capacity > 0 && made == MadeFirst(c, Fresh(0, 0, 1, 0))
    ensures Execute(c, made, steps) == Some(s)
    ensures forall t :: PcOf(s, t) == Checking
    ensures forall place :: Content(s.at, place) != [] <==> place == Queue(FromProducer(0))
    ensures s.stopped == {}
    ensures s.tallies == map[] && s.counts == map[Counter(Producer(0), true) := 1]
  {
    var t := Producer(0);
    var sent := Apply(c, made, Push(t, 0));
    s := Apply(c, sent, Count(t));
    ExecuteFirst(c, sent, Count(t), []);
    ExecuteFirst(c, made, Push(t, 0), [Count(t)] + []);
    steps := [Push(t, 0)] + ([Count(t)] + []);
  }

  /** Producer 0 has just made its first message. */
  function MadeFirst(c: Setup, m: Message): State {
    INITIAL.(at := map[Hand(Producer(0)) := [m]], pc := map[Producer(0) := Sending(0, 0)],
             generated := map[0 := [m]], due := map[0 := m.timestamp + c.Interval()])
  }
}
