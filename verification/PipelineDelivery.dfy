/**
 What the invariants say about every reachable state: who is delivered what, in which order, that nothing is
 duplicated or altered, and how much can be under way.
 */
module PipelineDelivery {
  import opened MachineWords
  import opened Messages
  import opened Config
  import opened Sums
  import opened OrderingFilter
  import opened Pipeline
  import opened PipelineFlow
  import opened PipelineInvariant
  import opened PipelineOrder

  // ----- Order -----

  /**
   Lined up from delivery back to the producer, a key's messages are those its producer made, in the order it
   made them, without the dropped ones; without drops, all of them.
   */
  lemma JourneyIsWhatWasMade(c: Setup, s: State, k: Key)
    requires Reachable(c, s)
    ensures Journey(c, s.at, k, 0) == Survivors(s.at, GeneratedBy(s, k.producerId), k)
    ensures Ascending(Journey(c, s.at, k, 0))
    ensures (forall n: nat :: Drops(s.at, k.producerId, n) == 0) ==>
            Journey(c, s.at, k, 0) == OfKey(GeneratedBy(s, k.producerId), k)
  {
    ReachableOrder(c, s);
    MadeAscend(c, s, k.producerId);
    SurvivorsAscend(s.at, GeneratedBy(s, k.producerId), k);
    if forall n: nat :: Drops(s.at, k.producerId, n) == 0 {
      forall m | m in GeneratedBy(s, k.producerId) ensures m == Unstamped(m) {
        var i :| 0 <= i < |GeneratedBy(s, k.producerId)| && GeneratedBy(s, k.producerId)[i] == m;
        assert MadeBy(k.producerId, i, m);
      }
      AllSurvive(s.at, GeneratedBy(s, k.producerId), k);
    }
  }

  lemma {:induction false} AllSurvive(at: map<Place, seq<Message>>, made: seq<Message>, k: Key)
    requires forall m :: m in made ==> m == Unstamped(m)
    requires forall n: nat :: Drops(at, k.producerId, n) == 0
    ensures Survivors(at, made, k) == OfKey(made, k)
    decreases |made|
  {
    if made != [] {
      var before, last := made[..|made| - 1], made[|made| - 1];
      assert made == before + [last];
      AllSurvive(at, before, k);
      OfKeyConcat(before, [last], k);
    }
  }

  /**
   Of one key, a strategy is delivered an initial part of what was made and not dropped; no other strategy gets any.
   */
  lemma DeliveredInOrder(c: Setup, s: State, strategy: nat, k: Key)
    requires Reachable(c, s)
    ensures var delivered := OfKey(Content(s.at, Delivered(strategy)), k);
            && delivered <= Survivors(s.at, GeneratedBy(s, k.producerId), k)
            && Ascending(delivered)
            && (delivered != [] ==> strategy == c.config.StrategyFor(k.msgType))
  {
    var delivered := OfKey(Content(s.at, Delivered(strategy)), k);
    if delivered != [] {
      ReachableShape(c, s);
      DeliveredWhereRouted(c, s, strategy, k);
      JourneyIsWhatWasMade(c, s, k);
      AscendingPrefix(delivered, Journey(c, s.at, k, 1));
    }
  }

  lemma DeliveredWhereRouted(c: Setup, s: State, strategy: nat, k: Key)
    requires PlacesOk(c, s) && OfKey(Content(s.at, Delivered(strategy)), k) != []
    ensures strategy == c.config.StrategyFor(k.msgType)
    ensures Journey(c, s.at, k, 0) == OfKey(Content(s.at, Delivered(strategy)), k) + Journey(c, s.at, k, 1)
  {
    var i := OneOfKey(Content(s.at, Delivered(strategy)), k);
    assert MayBeAt(c, Delivered(strategy), Content(s.at, Delivered(strategy))[i]);
    assert PathPlace(c, k, 0) == Delivered(strategy);
  }

  lemma {:induction false} OneOfKey(ms: seq<Message>, k: Key) returns (i: nat)
    requires OfKey(ms, k) != []
    ensures i < |ms| && KeyOf(ms[i]) == k
  {
    if KeyOf(ms[0]) == k {
      i := 0;
    } else {
      i := OneOfKey(ms[1..], k);
      i := i + 1;
    }
  }

  lemma {:induction false} PositionOfKey(ms: seq<Message>, j: nat) returns (i: nat)
    requires j < |ms|
    ensures i < |OfKey(ms, KeyOf(ms[j]))| && OfKey(ms, KeyOf(ms[j]))[i] == Unstamped(ms[j])
  {
    if j == 0 {
      i := 0;
    } else {
      i := PositionOfKey(ms[1..], j - 1);
      i := if KeyOf(ms[0]) == KeyOf(ms[j]) then i + 1 else i;
    }
  }

  lemma {:induction false} AscendingOfEachKey(history: seq<Message>)
    requires forall k :: Ascending(OfKey(history, k))
    ensures AscendingPerKey(history)
    decreases |history|
  {
    if history != [] {
      var before, m := history[..|history| - 1], history[|history| - 1];
      assert history == before + [m];
      forall k ensures Ascending(OfKey(before, k)) {
        OfKeyConcat(before, [m], k);
        AscendingPrefix(OfKey(before, k), OfKey([m], k));
      }
      AscendingOfEachKey(before);
      forall i | 0 <= i < |history| ensures IsRecord(history, i) {
        if i < |before| {
          assert IsRecord(before, i);
          assert forall j :: 0 <= j <= i ==> history[j] == before[j];
        } else {
          LastIsRecord(before, m);
        }
      }
    }
  }

  lemma AscendingPrefix(a: seq<Message>, b: seq<Message>)
    requires Ascending(a + b)
    ensures Ascending(a)
  {
    assert forall i :: 0 <= i < |a| ==> (a + b)[i] == a[i];
  }

  lemma LastIsRecord(before: seq<Message>, m: Message)
    requires Ascending(OfKey(before + [m], KeyOf(m)))
    ensures IsRecord(before + [m], |before|)
  {
    var mine := OfKey(before, KeyOf(m));
    OfKeyConcat(before, [m], KeyOf(m));
    OfKeyOne(m);
    forall j | 0 <= j < |before| && KeyOf(before[j]) == KeyOf(m) ensures before[j].sequenceNumber < m.sequenceNumber {
      var i := PositionOfKey(before, j);
      assert (mine + [Unstamped(m)])[i] == Unstamped(before[j]);
      assert (mine + [Unstamped(m)])[|mine|] == Unstamped(m);
    }
  }

  /** An ordering buffer in front of a strategy would let everything through as it is, and change nothing. */
  lemma ReorderingWouldDoNothing(c: Setup, s: State, strategy: nat)
    requires Reachable(c, s)
    ensures Attempts(Content(s.at, Delivered(strategy))) == Content(s.at, Delivered(strategy))
  {
    ReachableOrder(c, s);
    var delivered := Content(s.at, Delivered(strategy));
    forall k ensures Ascending(OfKey(delivered, k)) {
      DeliveredInOrder(c, s, strategy, k);
    }
    AscendingOfEachKey(delivered);
    forall m | m in delivered ensures m.sequenceNumber + 1 < TWO_TO_THE_64 {
      var i :| 0 <= i < |delivered| && delivered[i] == m;
      assert Authentic(s, Content(s.at, Delivered(strategy))[i]);
      assert MadeBy(m.producerId, m.sequenceNumber - 1, GeneratedBy(s, m.producerId)[m.sequenceNumber - 1]);
    }
    AscendingPassesUnchanged(delivered);
  }

  // ----- Routing -----

  /**
   A delivered message is as it was made except for the stamp of the processor its type is routed to, and is where
   its type is routed to.
   */
  lemma DeliveredAsMade(c: Setup, s: State, strategy: nat, i: nat)
    requires Reachable(c, s) && i < |Content(s.at, Delivered(strategy))|
    ensures var m := Content(s.at, Delivered(strategy))[i];
            && 1 <= m.sequenceNumber <= |GeneratedBy(s, m.producerId)|
            && (var made := GeneratedBy(s, m.producerId)[m.sequenceNumber - 1];
                m == Stamped(made, c.config.ProcessorFor(made.msgType), m.processingTimestamp))
            && strategy == c.config.StrategyFor(m.msgType) < c.Strategies()
  {
    ReachableOrder(c, s);
    var m := Content(s.at, Delivered(strategy))[i];
    assert Authentic(s, m);
    assert MayBeAt(c, Delivered(strategy), m);
    assert m == Stamped(Unstamped(m), m.processorId, m.processingTimestamp);
    assert Unstamped(m).msgType == m.msgType;
  }

  // ----- Exactly once -----

  predicate IsAt(at: map<Place, seq<Message>>, place: Place, i: nat, p: nat, n: nat) {
    i < |Content(at, place)| && Content(at, place)[i].producerId == p && Content(at, place)[i].sequenceNumber == n
  }

  /** Every message made is at one place, at one position, and nothing else is anywhere. */
  lemma MadeIsAtOnePlace(c: Setup, s: State, p: nat, n: nat)
    requires Reachable(c, s)
    ensures 1 <= n <= |GeneratedBy(s, p)| <==> exists place, i: nat :: IsAt(s.at, place, i, p, n)
    ensures forall place, i: nat, place', i': nat ::
              IsAt(s.at, place, i, p, n) && IsAt(s.at, place', i', p, n) ==> place == place' && i == i'
  {
    ReachableOrder(c, s);
    if 1 <= n <= |GeneratedBy(s, p)| {
      assert Mass(IsMessage(p, n), s.at) == 1;
      var place, i := SomePlace(s.at, p, n);
    }
    forall place, i: nat | IsAt(s.at, place, i, p, n) ensures 1 <= n <= |GeneratedBy(s, p)| {
      assert Authentic(s, Content(s.at, place)[i]);
    }
    forall place, i: nat, place', i': nat | IsAt(s.at, place, i, p, n) && IsAt(s.at, place', i', p, n)
      ensures place == place' && i == i'
    {
      assert Mass(IsMessage(p, n), s.at) <= 1;
      NotTwice(s.at, place, i, place', i', p, n);
    }
  }

  lemma SomePlace(at: map<Place, seq<Message>>, p: nat, n: nat) returns (place: Place, i: nat)
    requires Mass(IsMessage(p, n), at) > 0
    ensures IsAt(at, place, i, p, n)
  {
    var masses := Masses(IsMessage(p, n), at);
    if forall x :: x in masses ==> masses[x] == 0 {
      MapSumZero(masses);
    }
    place :| place in masses && masses[place] > 0;
    i := SomePosition(at[place], place, p, n);
  }

  lemma {:induction false} SomePosition(ms: seq<Message>, place: Place, p: nat, n: nat) returns (i: nat)
    requires PlaceMass(IsMessage(p, n), place, ms) > 0
    ensures i < |ms| && ms[i].producerId == p && ms[i].sequenceNumber == n
  {
    if ms[0].producerId == p && ms[0].sequenceNumber == n {
      i := 0;
    } else {
      i := SomePosition(ms[1..], place, p, n);
      i := i + 1;
    }
  }

  lemma NotTwice(at: map<Place, seq<Message>>, place: Place, i: nat, place': Place, i': nat, p: nat, n: nat)
    requires IsAt(at, place, i, p, n) && IsAt(at, place', i', p, n) && Mass(IsMessage(p, n), at) <= 1
    ensures place == place' && i == i'
  {
    var masses := Masses(IsMessage(p, n), at);
    MapSumSplit(masses, place);
    if place != place' {
      MapSumSplit(masses - {place}, place');
      CountsOnce(at[place], place, i, p, n);
      CountsOnce(at[place'], place', i', p, n);
    } else if i < i' {
      CountsTwice(at[place], place, i, i', p, n);
    } else if i' < i {
      CountsTwice(at[place], place, i', i, p, n);
    }
  }

  lemma {:induction false} CountsOnce(ms: seq<Message>, place: Place, i: nat, p: nat, n: nat)
    requires i < |ms| && ms[i].producerId == p && ms[i].sequenceNumber == n
    ensures PlaceMass(IsMessage(p, n), place, ms) >= 1
  {
    if i > 0 {
      CountsOnce(ms[1..], place, i - 1, p, n);
    }
  }

  lemma {:induction false} CountsTwice(ms: seq<Message>, place: Place, i: nat, j: nat, p: nat, n: nat)
    requires i < j < |ms| && ms[i].producerId == p && ms[i].sequenceNumber == n
    requires ms[j].producerId == p && ms[j].sequenceNumber == n
    ensures PlaceMass(IsMessage(p, n), place, ms) >= 2
  {
    if i > 0 {
      CountsTwice(ms[1..], place, i - 1, j - 1, p, n);
    } else {
      CountsOnce(ms[1..], place, j - 1, p, n);
    }
  }

  // ----- How much is under way -----

  function QueueCount(c: Setup): nat {
    c.Producers() + 2 * c.Processors() + c.Strategies()
  }

  function NthQueue(c: Setup, i: nat): QueueId {
    var p, r := c.Producers(), c.Processors();
    if i < p then FromProducer(i)
    else if i < p + r then ToProcessor(i - p)
    else if i < p + r + r then FromProcessor(i - p - r)
    else ToStrategy(i - p - r - r)
  }

  lemma {:induction false} AllInQueue(place: Place, ms: seq<Message>)
    ensures PlaceMass(InQueue, place, ms) == (if place.Queue? then |ms| else 0)
    ensures PlaceMass(InHand, place, ms) == (if place.Hand? then |ms| else 0)
  {
    if ms != [] {
      AllInQueue(place, ms[1..]);
    }
  }

  /** No more messages are under way than the queues hold and the threads have in hand. */
  lemma InFlightBounded(c: Setup, s: State)
    requires Reachable(c, s)
    ensures Mass(InQueue, s.at) <= QueueCount(c) * c.capacity
    ensures Mass(InHand, s.at) <= ThreadCount(c)
  {
    ReachableShape(c, s);
    var queues := seq(QueueCount(c), i requires 0 <= i => Queue(NthQueue(c, i)));
    var hands := seq(ThreadCount(c), i requires 0 <= i => Hand(StopOrder(c, i)));
    forall place | place in s.at
      ensures PlaceMass(InQueue, place, s.at[place]) <= c.capacity && PlaceMass(InHand, place, s.at[place]) <= 1
      ensures place !in queues ==> PlaceMass(InQueue, place, s.at[place]) == 0
      ensures place !in hands ==> PlaceMass(InHand, place, s.at[place]) == 0
    {
      AllInQueue(place, s.at[place]);
      if place.Queue? {
        assert |Waiting(s, place.q)| <= c.capacity;
        if s.at[place] != [] {
          assert MayBeAt(c, place, Content(s.at, place)[0]);
          QueueListed(c, place.q);
        }
      }
      if place.Hand? {
        assert |Content(s.at, Hand(place.t))| <= 1;
        if s.at[place] != [] {
          assert MayBeAt(c, place, Content(s.at, place)[0]);
          ThreadListed(c, place.t);
        }
      }
    }
    MapSumAtMost(Masses(InQueue, s.at), queues, c.capacity);
    MapSumAtMost(Masses(InHand, s.at), hands, 1);
  }

  lemma QueueListed(c: Setup, q: QueueId)
    requires InRange(c, Queue(q))
    ensures Queue(q) in seq(QueueCount(c), i requires 0 <= i => Queue(NthQueue(c, i)))
  {
    var queues := seq(QueueCount(c), i requires 0 <= i => Queue(NthQueue(c, i)));
    var p, r := c.Producers(), c.Processors();
    var i := match q
      case FromProducer(x) => x
      case ToProcessor(x) => p + x
      case FromProcessor(x) => p + r + x
      case ToStrategy(x) => p + r + r + x;
    assert queues[i] == Queue(q);
  }

  lemma ThreadListed(c: Setup, t: Thread)
    requires c.Runs(t)
    ensures Hand(t) in seq(ThreadCount(c), i requires 0 <= i => Hand(StopOrder(c, i)))
  {
    var hands := seq(ThreadCount(c), i requires 0 <= i => Hand(StopOrder(c, i)));
    var i := StopPosition(c, t);
    assert hands[i] == Hand(t);
  }

  function StopPosition(c: Setup, t: Thread): nat {
    match t
    case Producer(p) => p
    case Router1 => c.Producers()
    case Processor(r) => c.Producers() + 1 + r
    case Router2 => c.Producers() + 1 + c.Processors()
    case Strategy(k) => c.Producers() + 2 + c.Processors() + k
  }

  // ----- Routes that lead nowhere -----

  /**
   With a validated configuration a router drops a message for want of a route exactly if the rule that decides for
   its type names a target that does not exist, and no message of such a type is ever past that router.
   */
  lemma NoRouteIsARule(c: Setup, s: State, place: Place, i: nat)
    requires Reachable(c, s) && c.config.Validate() && i < |Content(s.at, place)|
    ensures var msgType := Content(s.at, place)[i].msgType;
            && (NoProcessorFor(c.config, msgType) ==> Rank(place) >= Rank(Hand(Router1)))
            && (NoStrategyFor(c.config, msgType) ==> Rank(place) >= Rank(Hand(Router2)))
            && (place.Dropped? && place.t == Router1 ==> (place.why.NoRoute? <==> NoProcessorFor(c.config, msgType)))
            && (place.Dropped? && place.t == Router2 ==> (place.why.NoRoute? <==> NoStrategyFor(c.config, msgType)))
            && (place.Dropped? && place.why.NoRoute? ==> place.t == Router1 || place.t == Router2)
  {
    ReachableShape(c, s);
    var m := Content(s.at, place)[i];
    assert MayBeAt(c, place, m);
    Stage1ErrorsComeFromRules(c.config, m.msgType);
    Stage2ErrorsComeFromRules(c.config, m.msgType);
  }
}
