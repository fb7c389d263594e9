/**
 What the strategies' violation counters report. A producer numbers its messages across all types, and a strategy
 checks each type for itself, so they count gaps, not reorderings.
 */
module PipelineViolations {
  import opened Messages
  import opened Sums
  import opened StrategyMonitor
  import opened Pipeline
  import opened PipelineFlow
  import opened PipelineInvariant
  import opened PipelineOrder
  import opened PipelineAccounting
  import opened PipelineDelivery
  import opened PipelineDrain
  import opened PipelineNoLoss

  // ----- Runs of one type -----

  predicate Occurs(ms: seq<Message>, t: nat) {
    exists i :: 0 <= i < |ms| && ms[i].msgType == t
  }

  /** The maximal stretches of messages of one type. */
  function TypeRuns(ms: seq<Message>): nat {
    if ms == [] then 0
    else
      var last := |ms| - 1;
      TypeRuns(ms[..last]) + (if last == 0 || ms[last].msgType != ms[last - 1].msgType then 1 else 0)
  }

  /** The different types below `types`. */
  ghost function TypesIn(ms: seq<Message>, types: nat): nat {
    SumTo(types, t => OneIfOccurs(ms, t))
  }

  function OneIfOccurs(ms: seq<Message>, t: nat): nat {
    if Occurs(ms, t) then 1 else 0
  }

  /** No type comes back after another type. */
  ghost predicate NoTypeReturns(ms: seq<Message>) {
    forall i, j, k :: 0 <= i < j < k < |ms| && ms[i].msgType == ms[k].msgType ==> ms[j].msgType == ms[i].msgType
  }

  /** All messages of one producer, numbered from 1. */
  ghost predicate Numbered(ms: seq<Message>, p: nat, types: nat) {
    forall i :: 0 <= i < |ms| ==> MadeBy(p, i, ms[i]) && ms[i].msgType < types
  }

  /** The last message of a key is at the last position where the key occurs. */
  lemma {:induction false} LastOfKey(ms: seq<Message>, k: Key) returns (i: nat)
    requires OfKey(ms, k) != []
    ensures i < |ms| && KeyOf(ms[i]) == k && OfKey(ms, k)[|OfKey(ms, k)| - 1] == Unstamped(ms[i])
    ensures forall j :: i < j < |ms| ==> KeyOf(ms[j]) != k
    decreases |ms|
  {
    var before, m := ms[..|ms| - 1], ms[|ms| - 1];
    assert ms == before + [m];
    OfKeyConcat(before, [m], k);
    if KeyOf(m) == k {
      i := |before|;
    } else {
      i := LastOfKey(before, k);
    }
  }

  /** What one more message adds: a break exactly when its type occurred before, but not last. */
  lemma BreaksOfOneMore(ms: seq<Message>, m: Message, p: nat, types: nat)
    requires Numbered(ms + [m], p, types)
    ensures var t := m.msgType;
            Breaks(OfKey(ms + [m], Key(p, t))) ==
            Breaks(OfKey(ms, Key(p, t))) + (if Occurs(ms, t) && ms[|ms| - 1].msgType != t then 1 else 0)
  {
    var k := Key(p, m.msgType);
    assert forall i :: 0 <= i < |ms| ==> ms[i] == (ms + [m])[i];
    assert MadeBy(p, |ms|, (ms + [m])[|ms|]);
    OfKeyConcat(ms, [m], k);
    OfKeyOne(m);
    BreaksLast(OfKey(ms, k), m);
    NumberOfLast(ms, p, types, m.msgType);
  }

  /** The last message of a type has the last number exactly if it is the last message. */
  lemma NumberOfLast(ms: seq<Message>, p: nat, types: nat, t: nat)
    requires Numbered(ms, p, types)
    ensures var mine := OfKey(ms, Key(p, t));
            && (Occurs(ms, t) <==> mine != [])
            && (mine != [] ==> (mine[|mine| - 1].sequenceNumber == |ms| <==> ms[|ms| - 1].msgType == t))
  {
    var k := Key(p, t);
    if OfKey(ms, k) != [] {
      var i := LastOfKey(ms, k);
      assert MadeBy(p, i, ms[i]) && MadeBy(p, |ms| - 1, ms[|ms| - 1]);
    } else if Occurs(ms, t) {
      var i :| 0 <= i < |ms| && ms[i].msgType == t;
      assert MadeBy(p, i, ms[i]);
      var j := PositionOfKey(ms, i);
    }
  }

  lemma NumberedPrefix(ms: seq<Message>, p: nat, types: nat)
    requires ms != [] && Numbered(ms, p, types)
    ensures Numbered(ms[..|ms| - 1], p, types)
    ensures ms == ms[..|ms| - 1] + [ms[|ms| - 1]]
  {
  }

  lemma BreaksOfAllMore(ms: seq<Message>, m: Message, p: nat, types: nat)
    requires Numbered(ms + [m], p, types) && m.msgType < types
    ensures BreaksOfProducer(ms + [m], p, types) ==
            BreaksOfProducer(ms, p, types) +
            (if Occurs(ms, m.msgType) && ms[|ms| - 1].msgType != m.msgType then 1 else 0)
  {
    BreaksOfOneMore(ms, m, p, types);
    var more := if Occurs(ms, m.msgType) && ms[|ms| - 1].msgType != m.msgType then 1 else 0;
    forall t: nat | t < types && t != m.msgType ensures OfKey(ms + [m], Key(p, t)) == OfKey(ms, Key(p, t)) {
      OfKeyConcat(ms, [m], Key(p, t));
      Regroup(OfKey(ms, Key(p, t)), [], []);
    }
    SumAfter(types, t => Breaks(OfKey(ms, Key(p, t))), t => Breaks(OfKey(ms + [m], Key(p, t))), m.msgType, more);
  }

  lemma TypesOfOneMore(ms: seq<Message>, m: Message, types: nat)
    requires m.msgType < types
    ensures TypesIn(ms + [m], types) == TypesIn(ms, types) + (if Occurs(ms, m.msgType) then 0 else 1)
  {
    var more := if Occurs(ms, m.msgType) then 0 else 1;
    forall t: nat ensures Occurs(ms + [m], t) <==> Occurs(ms, t) || t == m.msgType {
      assert (ms + [m])[|ms|] == m;
      if Occurs(ms, t) {
        var i :| 0 <= i < |ms| && ms[i].msgType == t;
        assert (ms + [m])[i].msgType == t;
      }
    }
    SumAfter(types, t => OneIfOccurs(ms, t), t => OneIfOccurs(ms + [m], t), m.msgType, more);
  }

  lemma RunsOfOneMore(ms: seq<Message>, m: Message)
    ensures TypeRuns(ms + [m]) == TypeRuns(ms) + (if ms != [] && ms[|ms| - 1].msgType == m.msgType then 0 else 1)
    ensures ms != [] && ms[|ms| - 1].msgType == m.msgType ==> Occurs(ms, m.msgType)
  {
    assert (ms + [m])[..|ms|] == ms;
  }

  /** The breaks of a producer's keys in what it made: its stretches of one type, less its types. */
  lemma {:induction false} BreaksAreReturns(ms: seq<Message>, p: nat, types: nat)
    requires Numbered(ms, p, types)
    ensures BreaksOfProducer(ms, p, types) + TypesIn(ms, types) == TypeRuns(ms)
    decreases |ms|
  {
    if ms == [] {
      SumZero(types, t => Breaks(OfKey(ms, Key(p, t))));
      SumZero(types, t => OneIfOccurs(ms, t));
    } else {
      var before, m := ms[..|ms| - 1], ms[|ms| - 1];
      NumberedPrefix(ms, p, types);
      BreaksAreReturns(before, p, types);
      BreaksOfAllMore(before, m, p, types);
      TypesOfOneMore(before, m, types);
      RunsOfOneMore(before, m);
    }
  }

  lemma {:induction false} NoBreaksIffNoReturns(ms: seq<Message>, p: nat, types: nat)
    requires Numbered(ms, p, types)
    ensures BreaksOfProducer(ms, p, types) == 0 <==> NoTypeReturns(ms)
    decreases |ms|
  {
    if ms == [] {
      SumZero(types, t => Breaks(OfKey(ms, Key(p, t))));
    } else {
      var before, m := ms[..|ms| - 1], ms[|ms| - 1];
      NumberedPrefix(ms, p, types);
      NoBreaksIffNoReturns(before, p, types);
      BreaksOfAllMore(before, m, p, types);
      ReturnsOfOneMore(before, m);
    }
  }

  lemma ReturnsOfOneMore(before: seq<Message>, m: Message)
    ensures NoTypeReturns(before + [m]) <==>
            NoTypeReturns(before) && (Occurs(before, m.msgType) ==> before[|before| - 1].msgType == m.msgType)
  {
    var ms := before + [m];
    assert forall i :: 0 <= i < |before| ==> ms[i] == before[i];
    assert ms[|before|] == m;
    if NoTypeReturns(ms) {
      assert NoTypeReturns(before);
      if Occurs(before, m.msgType) {
        var i :| 0 <= i < |before| && before[i].msgType == m.msgType;
        assert ms[i].msgType == ms[|before|].msgType;
        assert i < |before| - 1 ==> ms[|before| - 1].msgType == ms[i].msgType;
      }
    }
    if NoTypeReturns(before) && (Occurs(before, m.msgType) ==> before[|before| - 1].msgType == m.msgType) {
      forall i, j, k | 0 <= i < j < k < |ms| && ms[i].msgType == ms[k].msgType ensures ms[j].msgType == ms[i].msgType {
        if k == |before| {
          assert Occurs(before, m.msgType);
        }
      }
    }
  }

  // ----- All strategies together -----

  ghost function TotalViolations(c: Setup, s: State): nat {
    SumTo(c.Strategies(), k => TallyAt(s, k).violations)
  }

  ghost function BreaksAt(s: State, k: nat, p: nat): nat {
    BreaksOfProducer(Content(s.at, Delivered(k)), p, 4)
  }

  ghost function BreaksOfKeyAt(s: State, p: nat, k: nat, t: nat): nat {
    Breaks(OfKey(Content(s.at, Delivered(k)), Key(p, t)))
  }

  /**
   In every state, whatever was lost: a strategy's violations are the breaks of the streams delivered to it, key by
   key.
   */
  lemma ViolationsAreBreaksHere(c: Setup, s: State, k: nat)
    requires Reachable(c, s)
    ensures TallyAt(s, k).violations == BreaksByKey(Content(s.at, Delivered(k)), c.Producers(), 4)
  {
    ReachableAccount(c, s);
    var delivered := Content(s.at, Delivered(k));
    forall m | m in delivered ensures m.producerId < c.Producers() && m.msgType < 4 {
      var i :| 0 <= i < |delivered| && delivered[i] == m;
      assert MayBeAt(c, Delivered(k), Content(s.at, Delivered(k))[i]);
    }
    ViolationsAreBreaks(delivered, c.Producers(), 4);
  }

  /** The numbers missing between the first and the last of an ascending stream. */
  function Missing(ms: seq<Message>): nat {
    if ms != [] && ms[|ms| - 1].sequenceNumber + 1 >= ms[0].sequenceNumber + |ms|
    then ms[|ms| - 1].sequenceNumber + 1 - ms[0].sequenceNumber - |ms|
    else 0
  }

  ghost function Numbers(ms: seq<Message>): set<nat> {
    set m | m in ms :: m.sequenceNumber
  }

  lemma NumbersOfOneMore(ms: seq<Message>)
    requires ms != []
    ensures Numbers(ms) == Numbers(ms[..|ms| - 1]) + {ms[|ms| - 1].sequenceNumber}
  {
    assert ms == ms[..|ms| - 1] + [ms[|ms| - 1]];
  }

  lemma {:induction false} NumbersOfAscending(ms: seq<Message>)
    requires Ascending(ms)
    ensures |Numbers(ms)| == |ms|
    ensures forall n :: n in Numbers(ms) ==> ms[0].sequenceNumber <= n <= ms[|ms| - 1].sequenceNumber
    decreases |ms|
  {
    if ms != [] {
      var before := ms[..|ms| - 1];
      NumbersOfAscending(before);
      NumbersOfOneMore(ms);
      hide Numbers;
      if before != [] {
        assert before[|before| - 1] == ms[|ms| - 2];
      }
    }
  }

  /** Of an ascending stream that is how many of the numbers between its first and its last it does not have. */
  lemma MissingIsExact(ms: seq<Message>)
    requires ms != [] && Ascending(ms)
    ensures Missing(ms) == ms[|ms| - 1].sequenceNumber + 1 - ms[0].sequenceNumber - |Numbers(ms)|
    ensures forall n :: n in Numbers(ms) ==> ms[0].sequenceNumber <= n <= ms[|ms| - 1].sequenceNumber
  {
    NumbersOfAscending(ms);
    BreaksAtMostMissing(ms);
  }

  ghost function MissingOfProducer(s: State, k: nat, p: nat): nat {
    SumTo(4, t => Missing(OfKey(Content(s.at, Delivered(k)), Key(p, t))))
  }

  /** As nothing is reordered, every violation is a gap: there are at most as many as numbers missing, key by key. */
  lemma ViolationsAreGaps(c: Setup, s: State, k: nat)
    requires Reachable(c, s)
    ensures TallyAt(s, k).violations <= SumTo(c.Producers(), p => MissingOfProducer(s, k, p))
  {
    ViolationsAreBreaksHere(c, s, k);
    var delivered := Content(s.at, Delivered(k));
    forall p: nat ensures BreaksOfProducer(delivered, p, 4) <= MissingOfProducer(s, k, p) {
      forall t: nat ensures Breaks(OfKey(delivered, Key(p, t))) <= Missing(OfKey(delivered, Key(p, t))) {
        DeliveredInOrder(c, s, k, Key(p, t));
        if OfKey(delivered, Key(p, t)) != [] {
          BreaksAtMostMissing(OfKey(delivered, Key(p, t)));
        }
      }
      SumAtMostEach(4, t => Breaks(OfKey(delivered, Key(p, t))), t => Missing(OfKey(delivered, Key(p, t))));
    }
    SumAtMostEach(c.Producers(), p => BreaksOfProducer(delivered, p, 4), p => MissingOfProducer(s, k, p));
  }

  lemma {:induction false} SumOnly(n: nat, f: nat -> nat, at: nat)
    requires at < n && forall i :: 0 <= i < n && i != at ==> f(i) == 0
    ensures SumTo(n, f) == f(at)
  {
    if at < n - 1 {
      SumOnly(n - 1, f, at);
    } else {
      SumZero(n - 1, f);
    }
  }

  lemma NoSuchStrategy(c: Setup, s: State, k: nat)
    requires Reachable(c, s) && k >= c.Strategies()
    ensures Content(s.at, Delivered(k)) == []
  {
    ReachableShape(c, s);
    var delivered := Content(s.at, Delivered(k));
    assert delivered != [] ==> MayBeAt(c, Delivered(k), delivered[0]);
  }

  /** A key's breaks are all counted by the strategy its type is routed to. */
  lemma BreaksOfKeyEverywhere(c: Setup, s: State, p: nat, t: nat)
    requires Reachable(c, s) && NothingDropped(s) && Drained(s) && t < 4
    ensures SumTo(c.Strategies(), k => BreaksOfKeyAt(s, p, k, t)) == Breaks(OfKey(GeneratedBy(s, p), Key(p, t)))
  {
    forall k: nat | k < c.Strategies() && k != c.config.StrategyFor(t) ensures BreaksOfKeyAt(s, p, k, t) == 0 {
      DeliveredInOrder(c, s, k, Key(p, t));
    }
    var k := c.config.StrategyFor(t);
    DrainedIsDelivered(c, s, Key(p, t));
    if k < c.Strategies() {
      SumOnly(c.Strategies(), k => BreaksOfKeyAt(s, p, k, t), k);
    } else {
      NoSuchStrategy(c, s, k);
      SumZero(c.Strategies(), k => BreaksOfKeyAt(s, p, k, t));
    }
  }

  lemma BreaksOfProducerEverywhere(c: Setup, s: State, p: nat)
    requires Reachable(c, s) && NothingDropped(s) && Drained(s)
    ensures SumTo(c.Strategies(), k => BreaksAt(s, k, p)) == BreaksOfProducer(GeneratedBy(s, p), p, 4)
  {
    var n := c.Strategies();
    var f := (k: nat, t: nat) => BreaksOfKeyAt(s, p, k, t);
    forall k | 0 <= k < n ensures BreaksAt(s, k, p) == Row(4, f, k) {
      SumEqual(4, t => Breaks(OfKey(Content(s.at, Delivered(k)), Key(p, t))), t => f(k, t));
    }
    SumEqual(n, k => BreaksAt(s, k, p), k => Row(4, f, k));
    SumSwap(n, 4, f);
    forall t | 0 <= t < 4 ensures Column(n, f, t) == Breaks(OfKey(GeneratedBy(s, p), Key(p, t))) {
      BreaksOfKeyEverywhere(c, s, p, t);
      SumEqual(n, k => f(k, t), k => BreaksOfKeyAt(s, p, k, t));
    }
    SumEqual(4, t => Column(n, f, t), t => Breaks(OfKey(GeneratedBy(s, p), Key(p, t))));
  }

  lemma TotalIsOfGenerated(c: Setup, s: State)
    requires Reachable(c, s) && NothingDropped(s) && Drained(s)
    ensures TotalViolations(c, s) == SumTo(c.Producers(), p => BreaksOfProducer(GeneratedBy(s, p), p, 4))
  {
    var n, m := c.Strategies(), c.Producers();
    var f := (k: nat, p: nat) => BreaksAt(s, k, p);
    forall k | 0 <= k < n ensures TallyAt(s, k).violations == Row(m, f, k) {
      ViolationsAreBreaksHere(c, s, k);
      SumEqual(m, p => BreaksOfProducer(Content(s.at, Delivered(k)), p, 4), p => f(k, p));
    }
    SumEqual(n, k => TallyAt(s, k).violations, k => Row(m, f, k));
    SumSwap(n, m, f);
    forall p | 0 <= p < m ensures Column(n, f, p) == BreaksOfProducer(GeneratedBy(s, p), p, 4) {
      BreaksOfProducerEverywhere(c, s, p);
      SumEqual(n, k => f(k, p), k => BreaksAt(s, k, p));
    }
    SumEqual(m, p => Column(n, f, p), p => BreaksOfProducer(GeneratedBy(s, p), p, 4));
  }

  lemma MadeIsNumbered(c: Setup, s: State, p: nat)
    requires Reachable(c, s)
    ensures Numbered(GeneratedBy(s, p), p, 4)
  {
    ReachableShape(c, s);
    forall i | 0 <= i < |GeneratedBy(s, p)| ensures MadeBy(p, i, GeneratedBy(s, p)[i]) {
    }
  }

  /**
   After a run without any loss the violations, over all strategies, are the producers' stretches of one type less
   their types: whatever the schedule was, they depend only on the order in which each producer drew its types.
   */
  lemma ViolationsOfPerfectRun(c: Setup, s: State)
    requires Reachable(c, s) && NothingDropped(s) && Drained(s)
    ensures TotalViolations(c, s) + SumTo(c.Producers(), p => TypesIn(GeneratedBy(s, p), 4)) ==
            SumTo(c.Producers(), p => TypeRuns(GeneratedBy(s, p)))
  {
    TotalIsOfGenerated(c, s);
    forall p | 0 <= p < c.Producers()
      ensures TypeRuns(GeneratedBy(s, p)) == BreaksOfProducer(GeneratedBy(s, p), p, 4) + TypesIn(GeneratedBy(s, p), 4)
    {
      MadeIsNumbered(c, s, p);
      BreaksAreReturns(GeneratedBy(s, p), p, 4);
    }
    SumAdd(c.Producers(), p => BreaksOfProducer(GeneratedBy(s, p), p, 4), p => TypesIn(GeneratedBy(s, p), 4),
           p => TypeRuns(GeneratedBy(s, p)));
  }

  lemma {:induction false} SumIsZero(n: nat, f: nat -> nat)
    ensures SumTo(n, f) == 0 <==> forall i :: 0 <= i < n ==> f(i) == 0
  {
    if n > 0 {
      SumIsZero(n - 1, f);
    }
  }

  /** Such a run reports no violation exactly when no producer ever came back to a type after another one. */
  lemma PerfectRunWithoutViolations(c: Setup, s: State)
    requires Reachable(c, s) && NothingDropped(s) && Drained(s)
    ensures TotalViolations(c, s) == 0 <==> forall p: nat :: p < c.Producers() ==> NoTypeReturns(GeneratedBy(s, p))
  {
    TotalIsOfGenerated(c, s);
    var breaks := (p: nat) => BreaksOfProducer(GeneratedBy(s, p), p, 4);
    SumIsZero(c.Producers(), breaks);
    SumEqual(c.Producers(), breaks, p => BreaksOfProducer(GeneratedBy(s, p), p, 4));
    forall p: nat | p < c.Producers() ensures breaks(p) == 0 <==> NoTypeReturns(GeneratedBy(s, p)) {
      MadeIsNumbered(c, s, p);
      NoBreaksIffNoReturns(GeneratedBy(s, p), p, 4);
    }
  }
}
