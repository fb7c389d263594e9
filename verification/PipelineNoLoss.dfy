/** Runs that make no more messages than one queue holds lose none, even if every view is stale. */
module PipelineNoLoss {
  import opened Wrappers
  import opened Messages
  import opened Sums
  import opened Pipeline
  import opened PipelineFlow
  import opened PipelineInvariant
  import opened PipelineOrder
  import opened PipelineAccounting
  import opened PipelineDelivery
  import opened PipelineDrain

  /** The type leads to a processor and a strategy that exist. */
  predicate HasRoute(c: Setup, msgType: nat) {
    c.config.ProcessorFor(msgType) < c.config.processors && c.config.StrategyFor(msgType) < c.config.strategies
  }

  /** Every type that can be made has a route. */
  predicate RoutesExist(c: Setup) {
    forall t: nat :: t <= 3 ==> HasRoute(c, t)
  }

  /** Every type that was made has a route. */
  ghost predicate RoutesMade(c: Setup, s: State) {
    forall p, i :: 0 <= i < |GeneratedBy(s, p)| ==> HasRoute(c, GeneratedBy(s, p)[i].msgType)
  }

  lemma MadeHasRoute(c: Setup, s: State)
    requires RoutesExist(c) && Reachable(c, s)
    ensures RoutesMade(c, s)
  {
    ReachableShape(c, s);
    forall p, i | 0 <= i < |GeneratedBy(s, p)| ensures HasRoute(c, GeneratedBy(s, p)[i].msgType) {
      assert MadeBy(p, i, GeneratedBy(s, p)[i]);
    }
  }

  lemma {:induction false} CountAt(place: Place, ms: seq<Message>)
    ensures PlaceMass(At(place), place, ms) == |ms|
  {
    if ms != [] {
      CountAt(place, ms[1..]);
    }
  }

  /**
   A message in hand has not come as far as the queue it is meant for, so that queue was sent fewer messages than
   were made.
   */
  lemma SentLessThanMade(c: Setup, s: State, t: Thread, q: QueueId)
    requires AccountInv(c, s) && Content(s.at, Hand(t)) != [] && Rank(Queue(q)) < Rank(Hand(t))
    ensures PushedTo(s, q) < Generated(c, s)
  {
    assert PushedTo(s, q) <= Mass(Beyond(Rank(Queue(q))), s.at);
    HeldWeighs(s.at, t);
    HeldIsNotBeyond(s.at, t, Rank(Queue(q)));
  }

  lemma HeldWeighs(at: map<Place, seq<Message>>, t: Thread)
    requires Content(at, Hand(t)) != []
    ensures Mass(At(Hand(t)), at) > 0
  {
    CountAt(Hand(t), Content(at, Hand(t)));
    MapSumSplit(Masses(At(Hand(t)), at), Hand(t));
  }

  lemma HeldIsNotBeyond(at: map<Place, seq<Message>>, t: Thread, rank: nat)
    requires rank < Rank(Hand(t))
    ensures Mass(Beyond(rank), at) + Mass(At(Hand(t)), at) <= Mass(One, at)
  {
    forall place, m | m in Content(at, place)
      ensures WeightOf(Plus(Beyond(rank), At(Hand(t))), place, m) <= WeightOf(One, place, m)
    {
      assert WeightOf(Plus(Beyond(rank), At(Hand(t))), place, m) ==
             WeightOf(Beyond(rank), place, m) + WeightOf(At(Hand(t)), place, m);
    }
    MassAtMost(Plus(Beyond(rank), At(Hand(t))), One, at);
    MassPlus(Beyond(rank), At(Hand(t)), at);
  }

  lemma TargetIsNearer(c: Setup, t: Thread, m: Message)
    requires Target(c, t, m).Some?
    ensures Rank(Queue(Target(c, t, m).value)) < Rank(Hand(t))
  {
  }

  /**
   As long as no more messages were made than a queue holds, no push can be refused, however stale the view of the
   head is.
   */
  lemma NoRefusal(c: Setup, s: State, t: Thread, seen: nat)
    requires AccountInv(c, s) && Generated(c, s) <= c.capacity
    ensures !Enabled(c, s, Refuse(t, seen))
  {
    hide CountsOk, TotalsOk, PushesOk, MadeOk, TalliesOk, PlacesOk, QueuesOk, GeneratedOk;
    if CanSend(c, s, t) {
      var m := Held(s, t).value;
      TargetIsNearer(c, t, m);
      SentLessThanMade(c, s, t, Target(c, t, m).value);
    }
  }

  lemma NoRejection(c: Setup, s: State, t: Thread)
    requires Shape(c, s) && AllAuthentic(s) && RoutesMade(c, s)
    ensures !Enabled(c, s, Reject(t))
  {
    if Held(s, t).Some? {
      var m := Content(s.at, Hand(t))[0];
      assert MayBeAt(c, Hand(t), m) && Authentic(s, m);
      assert Unstamped(m).msgType == m.msgType;
    }
  }

  ghost predicate NothingDropped(s: State) {
    forall t, why :: Content(s.at, Dropped(t, why)) == []
  }

  lemma StepDropsNothing(c: Setup, s: State, step: Step)
    requires AccountInv(c, s) && AllAuthentic(s) && NothingDropped(s) && Enabled(c, s, step)
    requires RoutesMade(c, s) && Generated(c, s) <= c.capacity
    ensures NothingDropped(Apply(c, s, step))
  {
    if step.Refuse? {
      NoRefusal(c, s, step.t, step.seen);
    } else if step.Reject? {
      NoRejection(c, s, step.t);
    } else {
      DropsOnlyByThese(c, s, step);
    }
  }

  lemma DropsOnlyByThese(c: Setup, s: State, step: Step)
    requires NothingDropped(s) && Enabled(c, s, step) && !step.Refuse? && !step.Reject?
    ensures NothingDropped(Apply(c, s, step))
  {
    forall t, why ensures Content(Apply(c, s, step).at, Dropped(t, why)) == [] {
      assert Content(s.at, Dropped(t, why)) == [];
    }
  }

  lemma {:induction false} GeneratedGrows(c: Setup, s: State, steps: seq<Step>, s': State)
    requires Execute(c, s, steps) == Some(s')
    ensures Generated(c, s) <= Generated(c, s')
    ensures forall p :: GeneratedBy(s, p) <= GeneratedBy(s', p)
    decreases |steps|
  {
    if steps != [] {
      GeneratedAfter(c, s, steps[0]);
      var s1 := Apply(c, s, steps[0]);
      SumAtMostEach(c.Producers(), p => |GeneratedBy(s, p)|, p => |GeneratedBy(s1, p)|);
      GeneratedGrows(c, s1, steps[1..], s');
    }
  }

  lemma {:induction false} RunDropsNothing(c: Setup, s: State, steps: seq<Step>, s': State)
    requires AccountInv(c, s) && AllAuthentic(s) && NothingDropped(s) && Execute(c, s, steps) == Some(s')
    requires RoutesMade(c, s') && Generated(c, s') <= c.capacity
    ensures NothingDropped(s')
    decreases |steps|
  {
    if steps != [] {
      GeneratedGrows(c, s, steps, s');
      forall p, i | 0 <= i < |GeneratedBy(s, p)| ensures HasRoute(c, GeneratedBy(s, p)[i].msgType) {
        assert GeneratedBy(s, p)[i] == GeneratedBy(s', p)[i];
      }
      StepAuthentic(c, s, steps[0]);
      StepDropsNothing(c, s, steps[0]);
      StepAccount(c, s, steps[0]);
      RunDropsNothing(c, Apply(c, s, steps[0]), steps[1..], s');
    }
  }

  /** A run that makes at most as many messages as a queue holds, all with routes in range, drops none anywhere. */
  lemma SmallRunsLoseNothing(c: Setup, s: State)
    requires Reachable(c, s) && RoutesMade(c, s) && Generated(c, s) <= c.capacity
    ensures NothingDropped(s)
    ensures forall t, seen :: !Enabled(c, s, Refuse(t, seen)) && !Enabled(c, s, Reject(t))
  {
    var steps :| Execute(c, INITIAL, steps) == Some(s);
    InitialAccount(c);
    RunDropsNothing(c, INITIAL, steps, s);
    ReachableAccount(c, s);
    ReachableOrder(c, s);
    forall t, seen ensures !Enabled(c, s, Refuse(t, seen)) && !Enabled(c, s, Reject(t)) {
      NoRefusal(c, s, t, seen);
      NoRejection(c, s, t);
    }
  }

  lemma NothingDroppedCounts(s: State, p: nat, n: nat)
    requires NothingDropped(s)
    ensures Drops(s.at, p, n) == 0
  {
    forall place ensures Content(s.at, place) == [] || forall m :: WeightOf(IsDropped(p, n), place, m) == 0 {
      assert place.Dropped? ==> Content(s.at, Dropped(place.t, place.why)) == [];
    }
    MassZero(IsDropped(p, n), s.at);
  }

  /**
   When nothing was dropped and nothing is under way, every strategy has been delivered exactly the messages made for
   it, each key in order.
   */
  lemma DrainedIsDelivered(c: Setup, s: State, k: Key)
    requires Reachable(c, s) && NothingDropped(s) && Drained(s)
    ensures OfKey(Content(s.at, Delivered(c.config.StrategyFor(k.msgType))), k) ==
            OfKey(GeneratedBy(s, k.producerId), k)
  {
    forall n: nat ensures Drops(s.at, k.producerId, n) == 0 {
      NothingDroppedCounts(s, k.producerId, n);
    }
    JourneyIsWhatWasMade(c, s, k);
    forall i | 1 <= i < 10 ensures OfKey(Content(s.at, PathPlace(c, k, i)), k) == [] {
      assert PathPlace(c, k, i).Queue? ==> Waiting(s, PathPlace(c, k, i).q) == [];
      assert PathPlace(c, k, i).Hand? ==> Content(s.at, Hand(PathPlace(c, k, i).t)) == [];
    }
    EmptyJourney(c, s.at, k, 1);
    Regroup(OfKey(Content(s.at, PathPlace(c, k, 0)), k), [], []);
  }
}
