/**
 First in, first out for every key through the whole pipeline, and no message lost track of: at every
 step of every run, whatever the schedule, the configuration and the number of threads.
 */
module PipelineOrder {
  import opened Wrappers
  import opened Messages
  import opened Pipeline
  import opened PipelineFlow
  import opened PipelineInvariant

  // ----- Every message is one its producer made -----

  ghost predicate Authentic(s: State, m: Message) {
    var made := GeneratedBy(s, m.producerId);
    1 <= m.sequenceNumber <= |made| && Unstamped(m) == made[m.sequenceNumber - 1]
  }

  ghost predicate AllAuthentic(s: State) {
    forall place, i :: 0 <= i < |Content(s.at, place)| ==> Authentic(s, Content(s.at, place)[i])
  }

  lemma StepAuthentic(c: Setup, s: State, step: Step)
    requires Shape(c, s) && AllAuthentic(s) && Enabled(c, s, step)
    ensures AllAuthentic(Apply(c, s, step))
  {
    hide Apply, EffectOf, Enabled;
    var s' := Apply(c, s, step);
    var e := EffectOf(c, s, step);
    EffectIsProper(c, s, step);
    GeneratedAfter(c, s, step);
    assert forall p :: GeneratedBy(s, p) <= GeneratedBy(s', p);
    forall m | Authentic(s, m) ensures Authentic(s', m) {
    }
    forall place, i | 0 <= i < |Content(s'.at, place)| ensures Authentic(s', Content(s'.at, place)[i]) {
      ContentAfter(c, s.at, e, place, i);
      if e.Shift? {
        assert Authentic(s, Content(s.at, e.from)[0]);
        assert Unstamped(e.m).producerId == e.m.producerId;
      }
    }
  }

  // ----- Exactly once -----

  /** Every generated message is at exactly one place, once; nothing else is anywhere. */
  ghost predicate ExactlyOnce(s: State) {
    forall p: nat, n: nat :: Mass(IsMessage(p, n), s.at) == if 1 <= n <= |GeneratedBy(s, p)| then 1 else 0
  }

  lemma StepExactlyOnce(c: Setup, s: State, step: Step)
    requires Shape(c, s) && ExactlyOnce(s) && Enabled(c, s, step)
    ensures ExactlyOnce(Apply(c, s, step))
  {
    var s' := Apply(c, s, step);
    var e := EffectOf(c, s, step);
    EffectIsProper(c, s, step);
    GeneratedAfter(c, s, step);
    forall p: nat, n: nat ensures Mass(IsMessage(p, n), s'.at) == if 1 <= n <= |GeneratedBy(s', p)| then 1 else 0 {
      MassAfter(c, IsMessage(p, n), s.at, e);
    }
  }

  lemma GeneratedAfter(c: Setup, s: State, step: Step)
    requires Enabled(c, s, step)
    ensures Apply(c, s, step).at == Perform(s.at, EffectOf(c, s, step))
    ensures forall p: nat :: GeneratedBy(Apply(c, s, step), p) ==
              if step.Generate? && step.p == p then GeneratedBy(s, p) + [EffectOf(c, s, step).m] else GeneratedBy(s, p)
    ensures EffectOf(c, s, step).Arrive? <==> step.Generate?
    ensures step.Generate? ==>
            EffectOf(c, s, step).m == Fresh(step.msgType, step.p, |GeneratedBy(s, step.p)| + 1, step.now)
  {
  }

  // ----- Order -----

  /** How often message `n` of producer `p` was dropped. */
  ghost function Drops(at: map<Place, seq<Message>>, p: nat, n: nat): nat {
    Mass(IsDropped(p, n), at)
  }

  /** The messages of one key among those made, without the ones that were dropped. */
  ghost function Survivors(at: map<Place, seq<Message>>, made: seq<Message>, k: Key): seq<Message> {
    if made == [] then []
    else
      var last := made[|made| - 1];
      Survivors(at, made[..|made| - 1], k) +
      (if KeyOf(last) == k && Drops(at, k.producerId, last.sequenceNumber) == 0 then [last] else [])
  }

  /**
   Every key's messages, from delivery back to the producer's hand, are those made and not dropped, in the order they
   were made.
   */
  ghost predicate InOrder(c: Setup, s: State) {
    forall k :: Journey(c, s.at, k, 0) == Survivors(s.at, GeneratedBy(s, k.producerId), k)
  }

  lemma {:induction false} SurvivorsSame(at: map<Place, seq<Message>>, at': map<Place, seq<Message>>,
                                         made: seq<Message>, k: Key)
    requires forall m :: m in made && KeyOf(m) == k ==>
               Drops(at', k.producerId, m.sequenceNumber) == Drops(at, k.producerId, m.sequenceNumber)
    ensures Survivors(at', made, k) == Survivors(at, made, k)
    decreases |made|
  {
    if made != [] {
      SurvivorsSame(at, at', made[..|made| - 1], k);
    }
  }

  lemma SurvivorsLast(at: map<Place, seq<Message>>, made: seq<Message>, m: Message, k: Key)
    ensures Survivors(at, made + [m], k) ==
            Survivors(at, made, k) +
            (if KeyOf(m) == k && Drops(at, k.producerId, m.sequenceNumber) == 0 then [m] else [])
  {
    assert (made + [m])[..|made|] == made;
  }

  lemma {:induction false} SurvivorsMade(at: map<Place, seq<Message>>, made: seq<Message>, k: Key)
    ensures forall m :: m in Survivors(at, made, k) ==> m in made && KeyOf(m) == k
    decreases |made|
  {
    if made != [] {
      SurvivorsMade(at, made[..|made| - 1], k);
    }
  }

  lemma {:induction false} SurvivorsAscend(at: map<Place, seq<Message>>, made: seq<Message>, k: Key)
    requires Ascending(made)
    ensures Ascending(Survivors(at, made, k))
    decreases |made|
  {
    if made != [] {
      var before := made[..|made| - 1];
      SurvivorsAscend(at, before, k);
      SurvivorsMade(at, before, k);
      var kept := Survivors(at, before, k);
      forall i | 0 <= i < |kept| ensures kept[i].sequenceNumber < made[|made| - 1].sequenceNumber {
        assert kept[i] in before;
      }
    }
  }

  function Strip(ms: seq<Message>, n: nat): seq<Message> {
    if ms == [] then []
    else Strip(ms[..|ms| - 1], n) + (if ms[|ms| - 1].sequenceNumber == n then [] else [ms[|ms| - 1]])
  }

  lemma StripLast(ms: seq<Message>, m: Message, n: nat)
    ensures Strip(ms + [m], n) == Strip(ms, n) + (if m.sequenceNumber == n then [] else [m])
  {
    assert (ms + [m])[..|ms|] == ms;
  }

  lemma {:induction false} StripNothing(ms: seq<Message>, n: nat)
    requires forall m :: m in ms ==> m.sequenceNumber != n
    ensures Strip(ms, n) == ms
    decreases |ms|
  {
    if ms != [] {
      StripNothing(ms[..|ms| - 1], n);
      assert ms == ms[..|ms| - 1] + [ms[|ms| - 1]];
    }
  }

  /** Taking the one message with number `n` out of an ascending sequence. */
  lemma {:induction false} StripOne(before: seq<Message>, m: Message, behind: seq<Message>)
    requires Ascending(before + [m] + behind)
    ensures Strip(before + [m] + behind, m.sequenceNumber) == before + behind
    decreases |behind|
  {
    var all := before + [m] + behind;
    if behind == [] {
      assert all == before + [m];
      assert forall i :: 0 <= i < |before| ==> all[i] == before[i] && all[|before|] == m;
      StripNothing(before, m.sequenceNumber);
      StripLast(before, m, m.sequenceNumber);
      assert before + behind == before;
    } else {
      var rest, last := behind[..|behind| - 1], behind[|behind| - 1];
      assert all == before + [m] + rest + [last];
      assert all[|before|] == m && all[|all| - 1] == last;
      assert forall i :: 0 <= i < |all| - 1 ==> (before + [m] + rest)[i] == all[i];
      StripOne(before, m, rest);
      StripLast(before + [m] + rest, last, m.sequenceNumber);
      assert before + rest + [last] == before + behind;
    }
  }

  /** Once message `n` of a producer is dropped, it is missing from the survivors of its key. */
  lemma {:induction false} SurvivorsLose(at: map<Place, seq<Message>>, at': map<Place, seq<Message>>,
                                         made: seq<Message>, k: Key, n: nat)
    requires Drops(at', k.producerId, n) > 0
    requires forall i: nat :: i != n ==> Drops(at', k.producerId, i) == Drops(at, k.producerId, i)
    ensures Survivors(at', made, k) == Strip(Survivors(at, made, k), n)
    decreases |made|
  {
    if made != [] {
      var last := made[|made| - 1];
      SurvivorsLose(at, at', made[..|made| - 1], k, n);
      StripLast(Survivors(at, made[..|made| - 1], k), last, n);
      Regroup(Survivors(at, made[..|made| - 1], k), [], []);
      Regroup(Survivors(at', made[..|made| - 1], k), [], []);
    }
  }

  /** Only a message that goes into a bin changes what was dropped. */
  lemma DropsAfter(c: Setup, at: map<Place, seq<Message>>, e: Effect, p: nat, n: nat)
    requires Proper(c, at, e)
    ensures Drops(Perform(at, e), p, n) == Drops(at, p, n) +
            if e.Shift? && e.to.Dropped? && e.m.producerId == p && e.m.sequenceNumber == n then 1 else 0
  {
    MassAfter(c, IsDropped(p, n), at, e);
  }

  /** What was not generated was not dropped. */
  lemma NotYetDropped(s: State, p: nat, n: nat)
    requires ExactlyOnce(s) && n > |GeneratedBy(s, p)|
    ensures Drops(s.at, p, n) == 0
  {
    MassAtMost(IsDropped(p, n), IsMessage(p, n), s.at);
  }

  lemma SurvivorsKept(c: Setup, at: map<Place, seq<Message>>, e: Effect, made: seq<Message>, k: Key)
    requires Proper(c, at, e) && (e.Shift? ==> !e.to.Dropped?)
    ensures Survivors(Perform(at, e), made, k) == Survivors(at, made, k)
  {
    forall n: nat ensures Drops(Perform(at, e), k.producerId, n) == Drops(at, k.producerId, n) {
      DropsAfter(c, at, e, k.producerId, n);
    }
    SurvivorsSame(at, Perform(at, e), made, k);
  }

  lemma ArrivalInOrder(c: Setup, at: map<Place, seq<Message>>, made: seq<Message>, m: Message, k: Key)
    requires Journey(c, at, k, 0) == Survivors(at, made, k)
    requires m == Unstamped(m) && Drops(at, m.producerId, m.sequenceNumber) == 0
    ensures Journey(c, Perform(at, Arrive(m)), k, 0) ==
            Survivors(Perform(at, Arrive(m)), if m.producerId == k.producerId then made + [m] else made, k)
  {
    var at' := Perform(at, Arrive(m));
    ArrivalEndsJourney(c, at, m, k);
    SurvivorsKept(c, at, Arrive(m), made, k);
    if KeyOf(m) == k {
      DropsAfter(c, at, Arrive(m), m.producerId, m.sequenceNumber);
      OfKeyOne(m);
      SurvivorsLast(at', made, m, k);
    } else {
      SurvivorsLast(at', made, m, k);
      Regroup(Survivors(at, made, k), [], []);
    }
  }

  lemma MoveInOrder(c: Setup, at: map<Place, seq<Message>>, e: Effect, made: seq<Message>, k: Key)
    requires Journey(c, at, k, 0) == Survivors(at, made, k)
    requires Proper(c, at, e) && !e.Arrive? && (e.Shift? ==> !e.to.Dropped?)
    ensures Journey(c, Perform(at, e), k, 0) == Survivors(Perform(at, e), made, k)
  {
    if e.Shift? {
      MoveKeepsJourney(c, at, e, k);
    }
    SurvivorsKept(c, at, e, made, k);
  }

  lemma SurvivorsAfterDrop(c: Setup, at: map<Place, seq<Message>>, e: Effect, made: seq<Message>)
    requires Proper(c, at, e) && e.Shift? && e.to.Dropped?
    ensures Survivors(Perform(at, e), made, KeyOf(e.m)) == Strip(Survivors(at, made, KeyOf(e.m)), e.m.sequenceNumber)
  {
    var at', k := Perform(at, e), KeyOf(e.m);
    forall n: nat
      ensures Drops(at', k.producerId, n) == Drops(at, k.producerId, n) + if e.m.sequenceNumber == n then 1 else 0
    {
      DropsAfter(c, at, e, k.producerId, n);
    }
    SurvivorsLose(at, at', made, k, e.m.sequenceNumber);
  }

  lemma DropOfKeyInOrder(c: Setup, at: map<Place, seq<Message>>, e: Effect, made: seq<Message>)
    requires Proper(c, at, e) && e.Shift? && e.to.Dropped? && Ascending(made)
    requires Journey(c, at, KeyOf(e.m), 0) == Survivors(at, made, KeyOf(e.m))
    ensures Journey(c, Perform(at, e), KeyOf(e.m), 0) == Survivors(Perform(at, e), made, KeyOf(e.m))
  {
    var at', k := Perform(at, e), KeyOf(e.m);
    var before, behind := DropLeavesJourney(c, at, e, k);
    SurvivorsAfterDrop(c, at, e, made);
    SurvivorsAscend(at, made, k);
    OfKeyOne(e.m);
    StripOne(before, Unstamped(e.m), behind);
  }

  lemma DropOfOtherInOrder(c: Setup, at: map<Place, seq<Message>>, e: Effect, made: seq<Message>, k: Key)
    requires Journey(c, at, k, 0) == Survivors(at, made, k)
    requires Proper(c, at, e) && e.Shift? && e.to.Dropped? && KeyOf(e.m) != k
    requires e.m.producerId == k.producerId ==>
             forall m :: m in made && KeyOf(m) == k ==> m.sequenceNumber != e.m.sequenceNumber
    ensures Journey(c, Perform(at, e), k, 0) == Survivors(Perform(at, e), made, k)
  {
    var at' := Perform(at, e);
    var before, behind := DropLeavesJourney(c, at, e, k);
    forall m | m in made && KeyOf(m) == k
      ensures Drops(at', k.producerId, m.sequenceNumber) == Drops(at, k.producerId, m.sequenceNumber)
    {
      DropsAfter(c, at, e, k.producerId, m.sequenceNumber);
    }
    SurvivorsSame(at, at', made, k);
    Regroup(before, [], behind);
  }

  lemma OfKeyOne(m: Message)
    ensures OfKey([m], KeyOf(m)) == [Unstamped(m)]
  {
  }

  lemma MadeAscend(c: Setup, s: State, p: nat)
    requires GeneratedOk(c, s)
    ensures Ascending(GeneratedBy(s, p))
  {
    var made := GeneratedBy(s, p);
    forall i, j | 0 <= i < j < |made| ensures made[i].sequenceNumber < made[j].sequenceNumber {
      assert MadeBy(p, i, made[i]) && MadeBy(p, j, made[j]);
    }
  }

  /** Two messages of one producer with the same number are the same, so they have the same type. */
  lemma OtherKeyOtherNumber(c: Setup, s: State, m: Message, k: Key)
    requires GeneratedOk(c, s) && Authentic(s, m) && KeyOf(m) != k
    ensures m.producerId == k.producerId ==>
            forall g :: g in GeneratedBy(s, k.producerId) && KeyOf(g) == k ==> g.sequenceNumber != m.sequenceNumber
  {
    var made := GeneratedBy(s, k.producerId);
    assert KeyOf(Unstamped(m)) == KeyOf(m);
    forall g | m.producerId == k.producerId && g in made && KeyOf(g) == k ensures g.sequenceNumber != m.sequenceNumber {
      var i :| 0 <= i < |made| && made[i] == g;
      assert MadeBy(k.producerId, i, g);
    }
  }

  lemma DropInOrder(c: Setup, s: State, e: Effect, k: Key)
    requires GeneratedOk(c, s) && AllAuthentic(s) && Proper(c, s.at, e) && e.Shift? && e.to.Dropped?
    requires Journey(c, s.at, k, 0) == Survivors(s.at, GeneratedBy(s, k.producerId), k)
    ensures Journey(c, Perform(s.at, e), k, 0) == Survivors(Perform(s.at, e), GeneratedBy(s, k.producerId), k)
  {
    MadeAscend(c, s, k.producerId);
    HeldAuthentic(s, e);
    if KeyOf(e.m) == k {
      DropOfKeyInOrder(c, s.at, e, GeneratedBy(s, k.producerId));
    } else {
      OtherKeyOtherNumber(c, s, e.m, k);
      DropOfOtherInOrder(c, s.at, e, GeneratedBy(s, k.producerId), k);
    }
  }

  lemma EffectInOrder(c: Setup, s: State, e: Effect, k: Key)
    requires GeneratedOk(c, s) && AllAuthentic(s) && ExactlyOnce(s) && InOrder(c, s) && Proper(c, s.at, e)
    requires e.Arrive? ==> e.m == Unstamped(e.m) && e.m.sequenceNumber > |GeneratedBy(s, e.m.producerId)|
    ensures Journey(c, Perform(s.at, e), k, 0) ==
            Survivors(Perform(s.at, e), GeneratedBy(s, k.producerId) +
                                        (if e.Arrive? && e.m.producerId == k.producerId then [e.m] else []), k)
  {
    var made := GeneratedBy(s, k.producerId);
    Regroup(made, [], []);
    if e.Arrive? {
      NotYetDropped(s, e.m.producerId, e.m.sequenceNumber);
      ArrivalInOrder(c, s.at, made, e.m, k);
    } else if e.Shift? && e.to.Dropped? {
      DropInOrder(c, s, e, k);
    } else {
      MoveInOrder(c, s.at, e, made, k);
    }
  }

  lemma StepInOrder(c: Setup, s: State, step: Step)
    requires Shape(c, s) && AllAuthentic(s) && ExactlyOnce(s) && InOrder(c, s) && Enabled(c, s, step)
    ensures InOrder(c, Apply(c, s, step))
  {
    var s' := Apply(c, s, step);
    EffectIsProper(c, s, step);
    GeneratedAfter(c, s, step);
    forall k ensures Journey(c, s'.at, k, 0) == Survivors(s'.at, GeneratedBy(s', k.producerId), k) {
      EffectInOrder(c, s, EffectOf(c, s, step), k);
      Regroup(GeneratedBy(s, k.producerId), [], []);
    }
  }

  lemma HeldAuthentic(s: State, e: Effect)
    requires AllAuthentic(s) && e.Shift? && Content(s.at, e.from) != []
    requires Unstamped(e.m) == Unstamped(Content(s.at, e.from)[0])
    ensures Authentic(s, e.m)
  {
    assert Authentic(s, Content(s.at, e.from)[0]);
    assert Unstamped(e.m).producerId == e.m.producerId && Unstamped(e.m).sequenceNumber == e.m.sequenceNumber;
  }

  // ----- Every run -----

  ghost predicate OrderInv(c: Setup, s: State) {
    Shape(c, s) && AllAuthentic(s) && ExactlyOnce(s) && InOrder(c, s)
  }

  lemma InitialOrder(c: Setup)
    ensures OrderInv(c, INITIAL)
  {
    InitialShape(c);
    forall p: nat, n: nat ensures Mass(IsMessage(p, n), INITIAL.at) == 0 {
      assert Masses(IsMessage(p, n), INITIAL.at) == map[];
    }
    forall k ensures Journey(c, INITIAL.at, k, 0) == [] {
      EmptyJourney(c, INITIAL.at, k, 0);
    }
  }

  lemma {:induction false} EmptyJourney(c: Setup, at: map<Place, seq<Message>>, k: Key, i: nat)
    requires forall j :: i <= j < 10 ==> OfKey(Content(at, PathPlace(c, k, j)), k) == []
    ensures Journey(c, at, k, i) == []
    decreases 10 - i
  {
    if i < 10 {
      EmptyJourney(c, at, k, i + 1);
    }
  }

  lemma {:induction false} RunOrder(c: Setup, s: State, steps: seq<Step>, s': State)
    requires OrderInv(c, s) && Execute(c, s, steps) == Some(s')
    ensures OrderInv(c, s')
    decreases |steps|
  {
    if steps != [] {
      StepShape(c, s, steps[0]);
      StepAuthentic(c, s, steps[0]);
      StepExactlyOnce(c, s, steps[0]);
      StepInOrder(c, s, steps[0]);
      RunOrder(c, Apply(c, s, steps[0]), steps[1..], s');
    }
  }

  lemma ReachableOrder(c: Setup, s: State)
    requires Reachable(c, s)
    ensures OrderInv(c, s)
  {
    var steps :| Execute(c, INITIAL, steps) == Some(s);
    InitialOrder(c);
    RunOrder(c, INITIAL, steps, s);
  }

  lemma AuthenticHere(c: Setup, s: State, place: Place, i: nat)
    requires Reachable(c, s) && i < |Content(s.at, place)|
    ensures Authentic(s, Content(s.at, place)[i])
  {
    ReachableOrder(c, s);
  }
}
