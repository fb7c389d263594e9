/**
 What the counters mean: at every step of every run, each is a count of messages, up to an increment that its
 thread still owes; and what the figures `main` prints after the stop sequence leave out.
 */
module PipelineAccounting {
  import opened Wrappers
  import opened Messages
  import opened Sums
  import opened StrategyMonitor
  import opened Pipeline
  import opened PipelineFlow
  import opened PipelineInvariant
  import opened PipelineOrder

  // ----- Counters -----

  function Counted(s: State, t: Thread, sent: bool): nat {
    Get(s.counts, Counter(t, sent), 0)
  }

  /** The increment the thread is about to make. */
  function Pending(s: State, t: Thread, sent: bool): nat {
    if PcOf(s, t).Counting? && PcOf(s, t).sent == sent then 1 else 0
  }

  function TallyAt(s: State, k: nat): Tally {
    Get(s.tallies, k, Tally(map[], 0, 0))
  }

  /** The messages a thread has pushed on. */
  ghost function SentBy(s: State, t: Thread): nat {
    match t
    case Producer(p) => PushedTo(s, FromProducer(p))
    case Router1 => Mass(Beyond(6), s.at)
    case Processor(r) => PushedTo(s, FromProcessor(r))
    case Router2 => Mass(Beyond(2), s.at)
    case Strategy(_) => 0
  }

  predicate IsRouter(t: Thread) {
    t.Router1? || t.Router2?
  }

  ghost predicate CountsOk(s: State) {
    && (forall t :: Counted(s, t, true) + Pending(s, t, true) == SentBy(s, t))
    && (forall t :: IsRouter(t) ==> Counted(s, t, false) + Pending(s, t, false) == Mass(DroppedBy(t), s.at))
  }

  /** The step sends the thread's message on, or drops it. */
  predicate Settles(c: Setup, s: State, step: Step, t: Thread, sent: bool)
    requires Enabled(c, s, step)
  {
    var e := EffectOf(c, s, step);
    e.Shift? && e.from == Hand(t) && (if sent then e.to.Queue? else e.to.Dropped?)
  }

  lemma CountedAfter(c: Setup, s: State, step: Step, t: Thread, sent: bool)
    requires Enabled(c, s, step) && (!sent ==> IsRouter(t))
    ensures var s' := Apply(c, s, step);
            Counted(s', t, sent) + Pending(s', t, sent) ==
            Counted(s, t, sent) + Pending(s, t, sent) + (if Settles(c, s, step, t, sent) then 1 else 0)
  {
    if t == Mover(c, step) {
      PendingAfter(c, s, step, sent);
      CountAfter(c, s, step, sent);
    } else {
      OthersCount(c, s, step, t, sent);
    }
  }

  lemma OthersCount(c: Setup, s: State, step: Step, t: Thread, sent: bool)
    requires Enabled(c, s, step) && t != Mover(c, step)
    ensures Counted(Apply(c, s, step), t, sent) == Counted(s, t, sent)
    ensures Pending(Apply(c, s, step), t, sent) == Pending(s, t, sent) && !Settles(c, s, step, t, sent)
  {
    OtherHands(c, s, step, t);
    OwnCount(c, s, step, t, sent);
    OwnHand(c, s, step);
    hide Apply, EffectOf;
  }

  /** A thread increments its own counters and sends what is in its own hand. */
  lemma OwnCount(c: Setup, s: State, step: Step, t: Thread, sent: bool)
    requires Enabled(c, s, step) && t != Mover(c, step)
    ensures Counted(Apply(c, s, step), t, sent) == Counted(s, t, sent)
  {
  }

  lemma OwnHand(c: Setup, s: State, step: Step)
    requires Enabled(c, s, step)
    ensures var e := EffectOf(c, s, step); e.Shift? && e.from.Hand? ==> e.from.t == Mover(c, step)
  {
  }

  lemma CountAfter(c: Setup, s: State, step: Step, sent: bool)
    requires Enabled(c, s, step)
    ensures var t := Mover(c, step);
            Counted(Apply(c, s, step), t, sent) ==
            Counted(s, t, sent) + (if step.Count? && PcOf(s, t).sent == sent then 1 else 0)
  {
  }

  lemma PendingAfter(c: Setup, s: State, step: Step, sent: bool)
    requires Enabled(c, s, step) && (!sent ==> IsRouter(Mover(c, step)))
    ensures var t := Mover(c, step);
            Pending(Apply(c, s, step), t, sent) ==
            if Settles(c, s, step, t, sent) then 1 else if step.Count? then 0 else Pending(s, t, sent)
  {
  }

  lemma PushedAfter(c: Setup, s: State, step: Step, q: QueueId)
    requires Enabled(c, s, step)
    ensures var e := EffectOf(c, s, step);
            PushedTo(Apply(c, s, step), q) == PushedTo(s, q) + (if e.Shift? && e.to == Queue(q) then 1 else 0)
  {
  }

  lemma SentAfter(c: Setup, s: State, step: Step, t: Thread)
    requires Enabled(c, s, step) && Proper(c, s.at, EffectOf(c, s, step))
    ensures SentBy(Apply(c, s, step), t) == SentBy(s, t) + (if Settles(c, s, step, t, true) then 1 else 0)
  {
    hide Apply, EffectOf, Enabled;
    PlacesAfter(c, s, step);
    var e := EffectOf(c, s, step);
    SendingThread(c, s.at, e, t);
    match t
    case Producer(p) => PushedAfter(c, s, step, FromProducer(p));
    case Router1 => MassAfter(c, Beyond(6), s.at, e);
    case Processor(r) => PushedAfter(c, s, step, FromProcessor(r));
    case Router2 => MassAfter(c, Beyond(2), s.at, e);
    case Strategy(_) =>
  }

  /** Who sends a message to where it goes. */
  lemma SendingThread(c: Setup, at: map<Place, seq<Message>>, e: Effect, t: Thread)
    requires Proper(c, at, e)
    ensures var sends := e.Shift? && e.from == Hand(t) && e.to.Queue?;
            match t
            case Producer(p) => sends <==> e.Shift? && e.to == Queue(FromProducer(p))
            case Router1 => sends <==> e.Shift? && Rank(e.to) == 6 && Rank(e.from) == 7
            case Processor(r) => sends <==> e.Shift? && e.to == Queue(FromProcessor(r))
            case Router2 => sends <==> e.Shift? && Rank(e.to) == 2 && Rank(e.from) == 3
            case Strategy(_) => !sends
  {
  }

  lemma ErrorsAfter(c: Setup, s: State, step: Step, t: Thread)
    requires Enabled(c, s, step) && Proper(c, s.at, EffectOf(c, s, step))
    ensures Mass(DroppedBy(t), Apply(c, s, step).at) ==
            Mass(DroppedBy(t), s.at) + (if Settles(c, s, step, t, false) then 1 else 0)
  {
    hide Apply, EffectOf, Enabled, Perform;
    PlacesAfter(c, s, step);
    MassAfter(c, DroppedBy(t), s.at, EffectOf(c, s, step));
  }

  lemma StepCounts(c: Setup, s: State, step: Step)
    requires Shape(c, s) && CountsOk(s) && Enabled(c, s, step)
    ensures CountsOk(Apply(c, s, step))
  {
    var s' := Apply(c, s, step);
    EffectIsProper(c, s, step);
    forall t ensures Counted(s', t, true) + Pending(s', t, true) == SentBy(s', t) {
      CountedAfter(c, s, step, t, true);
      SentAfter(c, s, step, t);
    }
    forall t | IsRouter(t) ensures Counted(s', t, false) + Pending(s', t, false) == Mass(DroppedBy(t), s'.at) {
      CountedAfter(c, s, step, t, false);
      ErrorsAfter(c, s, step, t);
    }
  }

  // ----- Totals -----

  ghost function SentByProducers(c: Setup, s: State): nat {
    SumTo(c.Producers(), p => PushedTo(s, FromProducer(p)))
  }

  ghost function SentByProcessors(c: Setup, s: State): nat {
    SumTo(c.Processors(), r => PushedTo(s, FromProcessor(r)))
  }

  ghost function DeliveredBy(s: State, k: nat): nat {
    |Content(s.at, Delivered(k))|
  }

  ghost function DeliveredToAll(c: Setup, s: State): nat {
    SumTo(c.Strategies(), k => DeliveredBy(s, k))
  }

  ghost function Generated(c: Setup, s: State): nat {
    SumTo(c.Producers(), p => |GeneratedBy(s, p)|)
  }

  ghost predicate TotalsOk(c: Setup, s: State) {
    && SentByProducers(c, s) == Mass(Beyond(8), s.at)
    && SentByProcessors(c, s) == Mass(Beyond(4), s.at)
    && DeliveredToAll(c, s) == Mass(IsDelivered, s.at)
    && Generated(c, s) == Mass(One, s.at)
  }

  lemma SumAfter(n: nat, f: nat -> nat, g: nat -> nat, at: nat, more: nat)
    requires more > 0 ==> at < n
    requires forall i :: 0 <= i < n ==> g(i) == f(i) + (if i == at then more else 0)
    ensures SumTo(n, g) == SumTo(n, f) + more
  {
    if more > 0 {
      SumOneMore(n, f, g, at, more);
    } else {
      SumEqual(n, f, g);
    }
  }

  predicate InRangeMove(c: Setup, at: map<Place, seq<Message>>, e: Effect) {
    Proper(c, at, e) && (e.Shift? ==> InRange(c, e.to))
  }

  lemma ProducersPushed(c: Setup, s: State, step: Step)
    requires Enabled(c, s, step) && InRangeMove(c, s.at, EffectOf(c, s, step))
    ensures var e := EffectOf(c, s, step);
            SentByProducers(c, Apply(c, s, step)) ==
            SentByProducers(c, s) + (if e.Shift? && e.to.Queue? && e.to.q.FromProducer? then 1 else 0)
  {
    var s', e := Apply(c, s, step), EffectOf(c, s, step);
    var (at, more) := if e.Shift? && e.to.Queue? && e.to.q.FromProducer? then (e.to.q.p, 1) else (0, 0);
    forall p | 0 <= p < c.Producers()
      ensures PushedTo(s', FromProducer(p)) == PushedTo(s, FromProducer(p)) + (if p == at then more else 0)
    {
      PushedAfter(c, s, step, FromProducer(p));
    }
    SumAfter(c.Producers(), p => PushedTo(s, FromProducer(p)), p => PushedTo(s', FromProducer(p)), at, more);
  }

  lemma ProducersSentAfter(c: Setup, s: State, step: Step)
    requires Enabled(c, s, step) && InRangeMove(c, s.at, EffectOf(c, s, step))
    requires SentByProducers(c, s) == Mass(Beyond(8), s.at)
    ensures SentByProducers(c, Apply(c, s, step)) == Mass(Beyond(8), Apply(c, s, step).at)
  {
    hide Apply, EffectOf, Enabled, Perform;
    PlacesAfter(c, s, step);
    ProducersPushed(c, s, step);
    MassAfter(c, Beyond(8), s.at, EffectOf(c, s, step));
  }

  lemma ProcessorsPushed(c: Setup, s: State, step: Step)
    requires Enabled(c, s, step) && InRangeMove(c, s.at, EffectOf(c, s, step))
    ensures var e := EffectOf(c, s, step);
            SentByProcessors(c, Apply(c, s, step)) ==
            SentByProcessors(c, s) + (if e.Shift? && e.to.Queue? && e.to.q.FromProcessor? then 1 else 0)
  {
    var s', e := Apply(c, s, step), EffectOf(c, s, step);
    var (at, more) := if e.Shift? && e.to.Queue? && e.to.q.FromProcessor? then (e.to.q.r, 1) else (0, 0);
    forall r | 0 <= r < c.Processors()
      ensures PushedTo(s', FromProcessor(r)) == PushedTo(s, FromProcessor(r)) + (if r == at then more else 0)
    {
      PushedAfter(c, s, step, FromProcessor(r));
    }
    SumAfter(c.Processors(), r => PushedTo(s, FromProcessor(r)), r => PushedTo(s', FromProcessor(r)), at, more);
  }

  lemma ProcessorsSentAfter(c: Setup, s: State, step: Step)
    requires Enabled(c, s, step) && InRangeMove(c, s.at, EffectOf(c, s, step))
    requires SentByProcessors(c, s) == Mass(Beyond(4), s.at)
    ensures SentByProcessors(c, Apply(c, s, step)) == Mass(Beyond(4), Apply(c, s, step).at)
  {
    hide Apply, EffectOf, Enabled, Perform;
    PlacesAfter(c, s, step);
    ProcessorsPushed(c, s, step);
    MassAfter(c, Beyond(4), s.at, EffectOf(c, s, step));
  }

  lemma ContentGrows(c: Setup, at: map<Place, seq<Message>>, e: Effect, place: Place)
    requires Proper(c, at, e)
    ensures |Content(Perform(at, e), place)| == |Content(at, place)| +
            (if e.Shift? && e.to == place then 1
             else if e.Arrive? && Hand(Producer(e.m.producerId)) == place then 1
             else if e.Shift? && e.from == place then -1
             else 0)
  {
  }

  lemma DeliveredAfter(c: Setup, s: State, step: Step)
    requires Enabled(c, s, step) && InRangeMove(c, s.at, EffectOf(c, s, step))
    requires DeliveredToAll(c, s) == Mass(IsDelivered, s.at)
    ensures DeliveredToAll(c, Apply(c, s, step)) == Mass(IsDelivered, Apply(c, s, step).at)
  {
    hide Apply, EffectOf, Enabled, Perform;
    PlacesAfter(c, s, step);
    var s', e := Apply(c, s, step), EffectOf(c, s, step);
    MassAfter(c, IsDelivered, s.at, e);
    var (at, more) := if e.Shift? && e.to.Delivered? then (e.to.s, 1) else (0, 0);
    forall k | 0 <= k < c.Strategies() ensures DeliveredBy(s', k) == DeliveredBy(s, k) + (if k == at then more else 0) {
      ContentGrows(c, s.at, e, Delivered(k));
    }
    SumAfter(c.Strategies(), k => DeliveredBy(s, k), k => DeliveredBy(s', k), at, more);
  }

  lemma GeneratedMassAfter(c: Setup, s: State, step: Step)
    requires Shape(c, s) && Enabled(c, s, step) && Generated(c, s) == Mass(One, s.at)
    ensures Generated(c, Apply(c, s, step)) == Mass(One, Apply(c, s, step).at)
  {
    assert step.Generate? ==> step.p < c.Producers();
    hide Apply, EffectOf, Enabled, Perform;
    PlacesAfter(c, s, step);
    var s', e := Apply(c, s, step), EffectOf(c, s, step);
    EffectIsProper(c, s, step);
    GeneratedAfter(c, s, step);
    MassAfter(c, One, s.at, e);
    var (at, more) := if step.Generate? then (step.p, 1) else (0, 0);
    SumAfter(c.Producers(), p => |GeneratedBy(s, p)|, p => |GeneratedBy(s', p)|, at, more);
  }

  /** No queue was sent more than all that came that far. */
  ghost predicate PushesOk(s: State) {
    forall q :: PushedTo(s, q) <= Mass(Beyond(Rank(Queue(q))), s.at)
  }

  lemma StepPushes(c: Setup, s: State, step: Step)
    requires Shape(c, s) && PushesOk(s) && Enabled(c, s, step)
    ensures PushesOk(Apply(c, s, step))
  {
    hide Apply, EffectOf, Enabled, Perform;
    PlacesAfter(c, s, step);
    EffectIsProper(c, s, step);
    forall q ensures PushedTo(Apply(c, s, step), q) <= Mass(Beyond(Rank(Queue(q))), Apply(c, s, step).at) {
      PushedAfter(c, s, step, q);
      MassAfter(c, Beyond(Rank(Queue(q))), s.at, EffectOf(c, s, step));
    }
  }

  // ----- What a producer made -----

  ghost predicate MadeOk(s: State) {
    forall p :: |GeneratedBy(s, p)| ==
                PushedTo(s, FromProducer(p)) + |Content(s.at, Hand(Producer(p)))| + Mass(DroppedBy(Producer(p)), s.at)
  }

  lemma StepMade(c: Setup, s: State, step: Step)
    requires Shape(c, s) && MadeOk(s) && Enabled(c, s, step)
    ensures MadeOk(Apply(c, s, step))
  {
    hide Apply, EffectOf, Enabled, Perform;
    var s', e := Apply(c, s, step), EffectOf(c, s, step);
    EffectIsProper(c, s, step);
    GeneratedAfter(c, s, step);
    forall p
      ensures |GeneratedBy(s', p)| ==
              PushedTo(s', FromProducer(p)) + |Content(s'.at, Hand(Producer(p)))| + Mass(DroppedBy(Producer(p)), s'.at)
    {
      assert |GeneratedBy(s, p)| ==
             PushedTo(s, FromProducer(p)) + |Content(s.at, Hand(Producer(p)))| + Mass(DroppedBy(Producer(p)), s.at);
      ContentGrows(c, s.at, e, Hand(Producer(p)));
      ProducerSettles(c, s, step, p);
    }
  }

  lemma ProducerSettles(c: Setup, s: State, step: Step, p: nat)
    requires Enabled(c, s, step) && Proper(c, s.at, EffectOf(c, s, step))
    ensures var (s', e) := (Apply(c, s, step), EffectOf(c, s, step));
            PushedTo(s', FromProducer(p)) + Mass(DroppedBy(Producer(p)), s'.at) ==
            PushedTo(s, FromProducer(p)) + Mass(DroppedBy(Producer(p)), s.at) +
            (if e.Shift? && e.from == Hand(Producer(p)) then 1 else 0)
  {
    PushedAfter(c, s, step, FromProducer(p));
    ErrorsAfter(c, s, step, Producer(p));
    SendingThread(c, s.at, EffectOf(c, s, step), Producer(p));
  }

  // ----- Tallies -----

  /** A strategy's object has processed exactly the messages delivered to it. */
  ghost predicate TalliesOk(s: State) {
    forall k :: TallyAt(s, k) == TallyOf(Content(s.at, Delivered(k)))
  }

  lemma StepTallies(c: Setup, s: State, step: Step)
    requires TalliesOk(s) && Enabled(c, s, step)
    ensures TalliesOk(Apply(c, s, step))
  {
    hide TallyOf;
    var s', e := Apply(c, s, step), EffectOf(c, s, step);
    forall k ensures TallyAt(s', k) == TallyOf(Content(s'.at, Delivered(k))) {
      assert TallyAt(s, k) == TallyOf(Content(s.at, Delivered(k)));
      if step.Deliver? && step.s == k {
        TallyLast(Content(s.at, Delivered(k)), e.m);
      }
    }
  }

  // ----- Every run -----

  ghost predicate AccountInv(c: Setup, s: State) {
    Shape(c, s) && CountsOk(s) && TotalsOk(c, s) && PushesOk(s) && MadeOk(s) && TalliesOk(s)
  }

  lemma InitialAccount(c: Setup)
    ensures AccountInv(c, INITIAL)
  {
    InitialShape(c);
    forall w: Weight ensures Mass(w, INITIAL.at) == 0 {
      assert Masses(w, INITIAL.at) == map[];
    }
    SumZero(c.Producers(), p => PushedTo(INITIAL, FromProducer(p)));
    SumZero(c.Processors(), r => PushedTo(INITIAL, FromProcessor(r)));
    SumZero(c.Strategies(), k => DeliveredBy(INITIAL, k));
    SumZero(c.Producers(), p => |GeneratedBy(INITIAL, p)|);
  }

  lemma StepAccount(c: Setup, s: State, step: Step)
    requires AccountInv(c, s) && Enabled(c, s, step)
    ensures AccountInv(c, Apply(c, s, step))
  {
    EffectIsProper(c, s, step);
    StepShape(c, s, step);
    StepCounts(c, s, step);
    ProducersSentAfter(c, s, step);
    ProcessorsSentAfter(c, s, step);
    DeliveredAfter(c, s, step);
    GeneratedMassAfter(c, s, step);
    StepPushes(c, s, step);
    StepMade(c, s, step);
    StepTallies(c, s, step);
  }

  lemma {:induction false} RunAccount(c: Setup, s: State, steps: seq<Step>, s': State)
    requires AccountInv(c, s) && Execute(c, s, steps) == Some(s')
    ensures AccountInv(c, s')
    decreases |steps|
  {
    if steps != [] {
      StepAccount(c, s, steps[0]);
      RunAccount(c, Apply(c, s, steps[0]), steps[1..], s');
    }
  }

  lemma ReachableAccount(c: Setup, s: State)
    requires Reachable(c, s)
    ensures AccountInv(c, s)
  {
    var steps :| Execute(c, INITIAL, steps) == Some(s);
    InitialAccount(c);
    RunAccount(c, INITIAL, steps, s);
  }
}
