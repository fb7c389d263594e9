/**
 How messages move: every step is an `Effect` on the places, each message keeps to the path its key is routed
 along, and two ways of reading all places at once. `Mass` adds up a weight over every message wherever it is;
 `Journey` lines up one key's messages from the delivered ones back to its producer's hand.
 */
module PipelineFlow {
  import opened Messages
  import opened Sums
  import opened Pipeline

  // ----- Paths -----

  /** The places of a key's path, from delivery (0) back to its producer's hand (9). */
  function PathPlace(c: Setup, k: Key, i: nat): Place {
    var r, s := c.config.ProcessorFor(k.msgType), c.config.StrategyFor(k.msgType);
    if i == 0 then Delivered(s)
    else if i == 1 then Hand(Strategy(s))
    else if i == 2 then Queue(ToStrategy(s))
    else if i == 3 then Hand(Router2)
    else if i == 4 then Queue(FromProcessor(r))
    else if i == 5 then Hand(Processor(r))
    else if i == 6 then Queue(ToProcessor(r))
    else if i == 7 then Hand(Router1)
    else if i == 8 then Queue(FromProducer(k.producerId))
    else Hand(Producer(k.producerId))
  }

  /** How far from delivery a place is; a dropped message stays as far as it came. */
  function Rank(place: Place): nat {
    match place
    case Delivered(_) => 0
    case Queue(q) =>
      (match q
       case ToStrategy(_) => 2
       case FromProcessor(_) => 4
       case ToProcessor(_) => 6
       case FromProducer(_) => 8)
    case Hand(t) => HandRank(t)
    case Dropped(t, _) => HandRank(t)
  }

  function HandRank(t: Thread): nat {
    match t
    case Strategy(_) => 1
    case Router2 => 3
    case Processor(_) => 5
    case Router1 => 7
    case Producer(_) => 9
  }

  /** A message is where its key's path leads through. */
  predicate OnPath(c: Setup, place: Place, m: Message) {
    if place.Dropped? then Hand(place.t) == PathPlace(c, KeyOf(m), Rank(place))
    else place == PathPlace(c, KeyOf(m), Rank(place))
  }

  /**
   A move is one place further along the message's path, or into the bin of the thread that holds it; nothing the
   producer set changes.
   */
  predicate Proper(c: Setup, at: map<Place, seq<Message>>, e: Effect) {
    match e
    case Stay => true
    case Arrive(m) => true
    case Shift(from, to, m) =>
      && Content(at, from) != [] && Unstamped(m) == Unstamped(Content(at, from)[0])
      && OnPath(c, from, m) && OnPath(c, to, m) && !from.Dropped?
      && (if to.Dropped? then from == Hand(to.t) && |Content(at, from)| == 1 else Rank(from) == Rank(to) + 1)
  }

  // ----- Weights -----

  datatype Weight =
    | One                            // every message
    | IsMessage(p: nat, n: nat)      // the message with this producer and number
    | IsDropped(p: nat, n: nat)      // the same, where it was dropped
    | Hops                           // how many moves a message is from delivery
    | Beyond(rank: nat)              // messages that are, or were dropped, at most this far from delivery
    | InQueue
    | InHand
    | QueuedWithin(rank: nat)        // messages in a queue, at most this far from delivery
    | HeldWithin(rank: nat)          // messages in a thread's hand, at most this far from delivery
    | IsDelivered
    | DroppedBy(t: Thread)
    | DroppedByProcessors
    | At(place: Place)
    | Plus(a: Weight, b: Weight)

  function WeightOf(w: Weight, place: Place, m: Message): nat {
    match w
    case One => 1
    case IsMessage(p, n) => if m.producerId == p && m.sequenceNumber == n then 1 else 0
    case IsDropped(p, n) => if place.Dropped? && m.producerId == p && m.sequenceNumber == n then 1 else 0
    case Hops => if place.Dropped? then 0 else Rank(place)
    case Beyond(rank) => if Rank(place) <= rank then 1 else 0
    case InQueue => if place.Queue? then 1 else 0
    case InHand => if place.Hand? then 1 else 0
    case QueuedWithin(rank) => if place.Queue? && Rank(place) <= rank then 1 else 0
    case HeldWithin(rank) => if place.Hand? && Rank(place) <= rank then 1 else 0
    case IsDelivered => if place.Delivered? then 1 else 0
    case DroppedBy(t) => if place.Dropped? && place.t == t then 1 else 0
    case DroppedByProcessors => if place.Dropped? && place.t.Processor? then 1 else 0
    case At(p) => if place == p then 1 else 0
    case Plus(a, b) => WeightOf(a, place, m) + WeightOf(b, place, m)
  }

  function PlaceMass(w: Weight, place: Place, ms: seq<Message>): nat {
    if ms == [] then 0 else WeightOf(w, place, ms[0]) + PlaceMass(w, place, ms[1..])
  }

  ghost function Masses(w: Weight, at: map<Place, seq<Message>>): map<Place, nat> {
    map place | place in at :: PlaceMass(w, place, at[place])
  }

  /** The weights of all messages at all places, added up. */
  ghost function Mass(w: Weight, at: map<Place, seq<Message>>): nat {
    MapSum(Masses(w, at))
  }

  lemma MassUpdate(w: Weight, at: map<Place, seq<Message>>, place: Place, ms: seq<Message>)
    ensures Mass(w, at[place := ms]) == Mass(w, at) - PlaceMass(w, place, Content(at, place)) + PlaceMass(w, place, ms)
  {
    hide WeightOf;
    MapSumUpdate(Masses(w, at), place, PlaceMass(w, place, ms));
    assert Masses(w, at[place := ms]) == Masses(w, at)[place := PlaceMass(w, place, ms)];
  }

  lemma {:induction false} PlaceMassAppend(w: Weight, place: Place, ms: seq<Message>, m: Message)
    ensures PlaceMass(w, place, ms + [m]) == PlaceMass(w, place, ms) + WeightOf(w, place, m)
  {
    if ms != [] {
      PlaceMassAppend(w, place, ms[1..], m);
      assert (ms + [m])[1..] == ms[1..] + [m];
    } else {
      assert [m][1..] == [];
    }
  }

  lemma PlaceMassFirst(w: Weight, place: Place, ms: seq<Message>)
    ensures PlaceMass(w, place, ms) == if ms == [] then 0 else WeightOf(w, place, ms[0]) + PlaceMass(w, place, ms[1..])
  {
  }

  lemma {:induction false} PlaceMassAtMost(w: Weight, w': Weight, place: Place, ms: seq<Message>)
    requires forall i :: 0 <= i < |ms| ==> WeightOf(w, place, ms[i]) <= WeightOf(w', place, ms[i])
    ensures PlaceMass(w, place, ms) <= PlaceMass(w', place, ms)
  {
    hide WeightOf, PlaceMass;
    PlaceMassFirst(w, place, ms);
    PlaceMassFirst(w', place, ms);
    if ms != [] {
      assert forall i :: 0 <= i < |ms| - 1 ==> ms[1..][i] == ms[i + 1];
      PlaceMassAtMost(w, w', place, ms[1..]);
    }
  }

  /** A weight that is never the larger one for any message has not the larger mass. */
  lemma MassAtMost(w: Weight, w': Weight, at: map<Place, seq<Message>>)
    requires forall place, m :: m in Content(at, place) ==> WeightOf(w, place, m) <= WeightOf(w', place, m)
    ensures Mass(w, at) <= Mass(w', at)
  {
    forall place | place in at ensures PlaceMass(w, place, at[place]) <= PlaceMass(w', place, at[place]) {
      assert Content(at, place) == at[place];
      PlaceMassAtMost(w, w', place, at[place]);
    }
    MapSumScaled(Masses(w, at), Masses(w', at), 1);
  }

  /** Where no message weighs anything, there is no mass. */
  lemma MassZero(w: Weight, at: map<Place, seq<Message>>)
    requires forall place :: Content(at, place) == [] || forall m :: WeightOf(w, place, m) == 0
    ensures Mass(w, at) == 0
  {
    forall place | place in at ensures PlaceMass(w, place, at[place]) == 0 {
      assert Content(at, place) == at[place];
      PlaceMassZero(w, place, at[place]);
    }
    MapSumZero(Masses(w, at));
  }

  lemma {:induction false} PlaceMassZero(w: Weight, place: Place, ms: seq<Message>)
    requires ms == [] || forall m :: WeightOf(w, place, m) == 0
    ensures PlaceMass(w, place, ms) == 0
  {
    if ms != [] {
      assert WeightOf(w, place, ms[0]) == 0;
      PlaceMassZero(w, place, ms[1..]);
    }
  }

  lemma {:induction false} PlaceMassPlus(a: Weight, b: Weight, place: Place, ms: seq<Message>)
    ensures PlaceMass(Plus(a, b), place, ms) == PlaceMass(a, place, ms) + PlaceMass(b, place, ms)
  {
    if ms != [] {
      PlaceMassPlus(a, b, place, ms[1..]);
    }
  }

  lemma MassPlus(a: Weight, b: Weight, at: map<Place, seq<Message>>)
    ensures Mass(Plus(a, b), at) == Mass(a, at) + Mass(b, at)
  {
    forall place | place in at
      ensures PlaceMass(Plus(a, b), place, at[place]) == PlaceMass(a, place, at[place]) + PlaceMass(b, place, at[place])
    {
      PlaceMassPlus(a, b, place, at[place]);
    }
    MapSumAdd(Masses(Plus(a, b), at), Masses(a, at), Masses(b, at));
  }

  /** The processor's stamp weighs nothing. */
  lemma {:induction false} StampWeighsNothing(w: Weight, place: Place, m: Message, m': Message)
    requires Unstamped(m) == Unstamped(m')
    ensures WeightOf(w, place, m) == WeightOf(w, place, m')
  {
    assert Unstamped(m).producerId == Unstamped(m').producerId;
    assert Unstamped(m).sequenceNumber == Unstamped(m').sequenceNumber;
    if w.Plus? {
      StampWeighsNothing(w.a, place, m, m');
      StampWeighsNothing(w.b, place, m, m');
    }
  }

  function Gain(w: Weight, e: Effect): nat {
    match e
    case Stay => 0
    case Arrive(m) => WeightOf(w, Hand(Producer(m.producerId)), m)
    case Shift(_, to, m) => WeightOf(w, to, m)
  }

  function Loss(w: Weight, e: Effect): nat {
    if e.Shift? then WeightOf(w, e.from, e.m) else 0
  }

  /** A step changes places by its effect only. */
  lemma PlacesAfter(c: Setup, s: State, step: Step)
    requires Enabled(c, s, step)
    ensures Apply(c, s, step).at == Perform(s.at, EffectOf(c, s, step))
  {
  }

  /** A move trades the message's weight where it was for its weight where it goes; nothing else counts. */
  lemma MassAfter(c: Setup, w: Weight, at: map<Place, seq<Message>>, e: Effect)
    requires Proper(c, at, e)
    ensures Mass(w, Perform(at, e)) == Mass(w, at) - Loss(w, e) + Gain(w, e)
  {
    hide WeightOf;
    match e
    case Stay =>
    case Arrive(m) =>
      var hand := Hand(Producer(m.producerId));
      MassUpdate(w, at, hand, Content(at, hand) + [m]);
      PlaceMassAppend(w, hand, Content(at, hand), m);
    case Shift(from, to, m) =>
      var at1 := at[from := Content(at, from)[1..]];
      StampWeighsNothing(w, from, m, Content(at, from)[0]);
      MassUpdate(w, at, from, Content(at, from)[1..]);
      MassUpdate(w, at1, to, Content(at1, to) + [m]);
      PlaceMassAppend(w, to, Content(at1, to), m);
  }

  // ----- Journeys -----

  /** A key's messages at the places `i` to 9 of its path, the one nearest to delivery first. */
  ghost function Journey(c: Setup, at: map<Place, seq<Message>>, k: Key, i: nat): seq<Message>
    decreases 10 - i
  {
    if i >= 10 then [] else OfKey(Content(at, PathPlace(c, k, i)), k) + Journey(c, at, k, i + 1)
  }

  lemma PathRank(c: Setup, k: Key, i: nat)
    requires i < 10
    ensures Rank(PathPlace(c, k, i)) == i && !PathPlace(c, k, i).Dropped?
  {
  }

  /** The places of a path differ from each other, and none is a bin. */
  lemma PathDistinct(c: Setup, k: Key, i: nat)
    requires i < 10
    ensures forall j :: 0 <= j < 10 ==>
            !PathPlace(c, k, j).Dropped? && (j != i ==> PathPlace(c, k, j) != PathPlace(c, k, i))
  {
    forall j | 0 <= j < 10
      ensures !PathPlace(c, k, j).Dropped? && (j != i ==> PathPlace(c, k, j) != PathPlace(c, k, i))
    {
      PathRank(c, k, i);
      PathRank(c, k, j);
    }
  }

  lemma Regroup(a: seq<Message>, b: seq<Message>, d: seq<Message>)
    ensures a + b + d == a + (b + d)
    ensures a + [] == a
    ensures [] + a == a
  {
  }

  /** What is not seen of a key at the places of its path does not change its journey. */
  lemma {:induction false} JourneySame(c: Setup, at: map<Place, seq<Message>>, at': map<Place, seq<Message>>,
                                       k: Key, i: nat)
    requires forall j :: i <= j < 10 ==>
               OfKey(Content(at', PathPlace(c, k, j)), k) == OfKey(Content(at, PathPlace(c, k, j)), k)
    ensures Journey(c, at', k, i) == Journey(c, at, k, i)
    decreases 10 - i
  {
    if i < 10 {
      JourneySame(c, at, at', k, i + 1);
    }
  }

  lemma OfKeyFirst(ms: seq<Message>, k: Key)
    requires ms != []
    ensures OfKey(ms, k) == OfKey([ms[0]], k) + OfKey(ms[1..], k)
  {
    OfKeyConcat([ms[0]], ms[1..], k);
    assert ms == [ms[0]] + ms[1..];
  }

  /** A key's messages at the first `n` places of its path. */
  ghost function Ahead(c: Setup, at: map<Place, seq<Message>>, k: Key, n: nat): seq<Message> {
    if n == 0 then [] else Ahead(c, at, k, n - 1) + OfKey(Content(at, PathPlace(c, k, n - 1)), k)
  }

  lemma {:induction false} AheadSame(c: Setup, at: map<Place, seq<Message>>, at': map<Place, seq<Message>>,
                                     k: Key, n: nat)
    requires forall j :: 0 <= j < n ==>
               OfKey(Content(at', PathPlace(c, k, j)), k) == OfKey(Content(at, PathPlace(c, k, j)), k)
    ensures Ahead(c, at', k, n) == Ahead(c, at, k, n)
  {
    if n > 0 {
      AheadSame(c, at, at', k, n - 1);
    }
  }

  lemma {:induction false} JourneySplit(c: Setup, at: map<Place, seq<Message>>, k: Key, n: nat)
    requires n <= 10
    ensures Journey(c, at, k, 0) == Ahead(c, at, k, n) + Journey(c, at, k, n)
  {
    if n > 0 {
      JourneySplit(c, at, k, n - 1);
      Regroup(Ahead(c, at, k, n - 1), OfKey(Content(at, PathPlace(c, k, n - 1)), k), Journey(c, at, k, n));
    } else {
      Regroup(Journey(c, at, k, 0), [], []);
    }
  }

  /** The message leaves one end of a place's content and joins the other end of the next one's. */
  lemma MoveInContent(at: map<Place, seq<Message>>, e: Effect, k: Key)
    requires e.Shift? && e.from != e.to && Content(at, e.from) != []
    requires Unstamped(e.m) == Unstamped(Content(at, e.from)[0])
    ensures var at' := Perform(at, e);
            && OfKey(Content(at, e.from), k) == OfKey([e.m], k) + OfKey(Content(at', e.from), k)
            && OfKey(Content(at', e.to), k) == OfKey(Content(at, e.to), k) + OfKey([e.m], k)
            && KeyOf(e.m) == KeyOf(Content(at, e.from)[0])
  {
    var head := Content(at, e.from)[0];
    OfKeyFirst(Content(at, e.from), k);
    OfKeyConcat(Content(at, e.to), [e.m], k);
    assert KeyOf(e.m) == KeyOf(Unstamped(e.m)) == KeyOf(Unstamped(head)) == KeyOf(head);
    assert OfKey([e.m], k) == OfKey([head], k);
  }

  /** A proper move to a place (not to a bin) changes no key's journey. */
  lemma MoveKeepsJourney(c: Setup, at: map<Place, seq<Message>>, e: Effect, k: Key)
    requires Proper(c, at, e) && e.Shift? && !e.to.Dropped?
    ensures Journey(c, Perform(at, e), k, 0) == Journey(c, at, k, 0)
  {
    MoveInContent(at, e, k);
    if KeyOf(e.m) == k {
      MoveKeepsOwnJourney(c, at, e);
    } else {
      JourneySame(c, at, Perform(at, e), k, 0);
    }
  }

  lemma MoveKeepsOwnJourney(c: Setup, at: map<Place, seq<Message>>, e: Effect)
    requires Proper(c, at, e) && e.Shift? && !e.to.Dropped?
    ensures Journey(c, Perform(at, e), KeyOf(e.m), 0) == Journey(c, at, KeyOf(e.m), 0)
  {
    var at', k, i := Perform(at, e), KeyOf(e.m), Rank(e.to);
    MoveInContent(at, e, k);
    OthersOfPathSame(c, at, e);
    JourneySame(c, at, at', k, i + 2);
    AheadSame(c, at, at', k, i);
    JourneySplit(c, at, k, i);
    JourneySplit(c, at', k, i);
    MoveAcross(OfKey(Content(at, e.to), k), OfKey([e.m], k), OfKey(Content(at', e.from), k), Journey(c, at, k, i + 2));
  }

  lemma OthersOfPathSame(c: Setup, at: map<Place, seq<Message>>, e: Effect)
    requires Proper(c, at, e) && e.Shift? && !e.to.Dropped?
    ensures var (k, i) := (KeyOf(e.m), Rank(e.to));
            && i < 9 && PathPlace(c, k, i) == e.to && PathPlace(c, k, i + 1) == e.from
            && forall j :: 0 <= j < 10 && j != i && j != i + 1 ==>
                 Content(Perform(at, e), PathPlace(c, k, j)) == Content(at, PathPlace(c, k, j))
  {
    PathDistinct(c, KeyOf(e.m), Rank(e.to));
    PathDistinct(c, KeyOf(e.m), Rank(e.to) + 1);
  }

  lemma MoveAcross(a: seq<Message>, m: seq<Message>, b: seq<Message>, rest: seq<Message>)
    ensures (a + m) + (b + rest) == a + ((m + b) + rest)
  {
  }

  /** A new message comes last in its key's journey. */
  lemma ArrivalEndsJourney(c: Setup, at: map<Place, seq<Message>>, m: Message, k: Key)
    ensures Journey(c, Perform(at, Arrive(m)), k, 0) == Journey(c, at, k, 0) + OfKey([m], k)
  {
    var at' := Perform(at, Arrive(m));
    ArrivalStaysBehind(c, at, m, k);
    JourneySplit(c, at, k, 9);
    JourneySplit(c, at', k, 9);
    LastOfJourney(c, at, k);
    LastOfJourney(c, at', k);
    Regroup(Ahead(c, at, k, 9), OfKey(Content(at, PathPlace(c, k, 9)), k), OfKey([m], k));
  }

  /** It comes last in its producer's hand, and nowhere else. */
  lemma ArrivalStaysBehind(c: Setup, at: map<Place, seq<Message>>, m: Message, k: Key)
    ensures var at' := Perform(at, Arrive(m));
            && Ahead(c, at', k, 9) == Ahead(c, at, k, 9)
            && OfKey(Content(at', PathPlace(c, k, 9)), k) == OfKey(Content(at, PathPlace(c, k, 9)), k) + OfKey([m], k)
  {
    var at', hand := Perform(at, Arrive(m)), Content(at, PathPlace(c, k, 9));
    forall j | 0 <= j < 9 ensures Content(at', PathPlace(c, k, j)) == Content(at, PathPlace(c, k, j)) {
      PathRank(c, k, j);
    }
    AheadSame(c, at, at', k, 9);
    if m.producerId == k.producerId {
      OfKeyConcat(hand, [m], k);
    } else {
      Regroup(OfKey(hand, k), [], []);
    }
  }

  lemma LastOfJourney(c: Setup, at: map<Place, seq<Message>>, k: Key)
    ensures Journey(c, at, k, 9) == OfKey(Content(at, PathPlace(c, k, 9)), k)
  {
    assert Journey(c, at, k, 10) == [];
  }

  /** A dropped message disappears from its key's journey, and from no other. */
  lemma DropLeavesJourney(c: Setup, at: map<Place, seq<Message>>, e: Effect, k: Key)
    returns (before: seq<Message>, behind: seq<Message>)
    requires Proper(c, at, e) && e.Shift? && e.to.Dropped?
    ensures Journey(c, at, k, 0) == before + OfKey([e.m], k) + behind
    ensures Journey(c, Perform(at, e), k, 0) == before + behind
  {
    if KeyOf(e.m) == k {
      before, behind := DropLeavesOwnJourney(c, at, e);
    } else {
      MoveInContent(at, e, k);
      PathDistinct(c, k, 0);
      JourneySame(c, at, Perform(at, e), k, 0);
      before, behind := [], Journey(c, at, k, 0);
      Regroup(behind, [], []);
    }
  }

  lemma DropLeavesOwnJourney(c: Setup, at: map<Place, seq<Message>>, e: Effect)
    returns (before: seq<Message>, behind: seq<Message>)
    requires Proper(c, at, e) && e.Shift? && e.to.Dropped?
    ensures Journey(c, at, KeyOf(e.m), 0) == before + OfKey([e.m], KeyOf(e.m)) + behind
    ensures Journey(c, Perform(at, e), KeyOf(e.m), 0) == before + behind
  {
    var at', k, i := Perform(at, e), KeyOf(e.m), Rank(e.from);
    DropEmptiesHand(c, at, e);
    AheadSame(c, at, at', k, i);
    JourneySame(c, at, at', k, i + 1);
    JourneySplit(c, at, k, i);
    JourneySplit(c, at', k, i);
    before, behind := Ahead(c, at, k, i), Journey(c, at, k, i + 1);
    Regroup(behind, [], []);
    Regroup(before, OfKey([e.m], k), behind);
  }

  lemma DropEmptiesHand(c: Setup, at: map<Place, seq<Message>>, e: Effect)
    requires Proper(c, at, e) && e.Shift? && e.to.Dropped?
    ensures var (at', k, i) := (Perform(at, e), KeyOf(e.m), Rank(e.from));
            && i < 10 && PathPlace(c, k, i) == e.from
            && OfKey(Content(at, e.from), k) == OfKey([e.m], k) && OfKey(Content(at', e.from), k) == []
            && forall j :: 0 <= j < 10 && j != i ==> Content(at', PathPlace(c, k, j)) == Content(at, PathPlace(c, k, j))
  {
    var k := KeyOf(e.m);
    MoveInContent(at, e, k);
    PathDistinct(c, k, Rank(e.from));
    assert OfKey(Content(Perform(at, e), e.from), k) == [];
    Regroup(OfKey([e.m], k), [], []);
  }
}
