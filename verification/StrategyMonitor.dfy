/**
 What a strategy's ordering check computes: one step per delivered message, and what the steps
 add up to over a whole history.
 */
module StrategyMonitor {
  import opened MachineWords
  import opened Messages
  import opened Sums

  datatype Tally = Tally(expected: map<Key, Word>, violations: nat, delivered: nat)

  /** `Strategy::process_message`. */
  function Process(t: Tally, m: Message): Tally {
    var key := KeyOf(m);
    var violation := key in t.expected && m.sequenceNumber != t.expected[key];
    Tally(t.expected[key := Successor(m.sequenceNumber)], t.violations + (if violation then 1 else 0), t.delivered + 1)
  }

  function TallyOf(history: seq<Message>): Tally {
    if history == [] then Tally(map[], 0, 0)
    else Process(TallyOf(history[..|history| - 1]), history[|history| - 1])
  }

  /** The adjacent pairs of a stream whose sequence numbers do not follow one another. */
  function Breaks(ms: seq<Message>): nat {
    if |ms| < 2 then 0
    else
      var last := |ms| - 1;
      Breaks(ms[..last]) + (if ms[last].sequenceNumber != Successor(ms[last - 1].sequenceNumber) then 1 else 0)
  }

  /** The breaks of one producer's keys with a type below `types`. */
  ghost function BreaksOfProducer(history: seq<Message>, p: nat, types: nat): nat {
    SumTo(types, t => Breaks(OfKey(history, Key(p, t))))
  }

  /** The breaks of every key with a producer below `producers` and a type below `types`. */
  ghost function BreaksByKey(history: seq<Message>, producers: nat, types: nat): nat {
    SumTo(producers, p => BreaksOfProducer(history, p, types))
  }

  lemma TallyLast(history: seq<Message>, m: Message)
    ensures TallyOf(history + [m]) == Process(TallyOf(history), m)
  {
    assert (history + [m])[..|history|] == history;
  }

  lemma BreaksLast(ms: seq<Message>, m: Message)
    ensures Breaks(ms + [m]) == Breaks(ms) +
            (if ms != [] && m.sequenceNumber != Successor(ms[|ms| - 1].sequenceNumber) then 1 else 0)
  {
    assert (ms + [m])[..|ms|] == ms;
  }

  /** After any history the next number expected of a key is one past the last delivered one, whatever came before. */
  lemma {:induction false} ExpectedIsLastPlusOne(history: seq<Message>, k: Key)
    ensures var mine := OfKey(history, k);
            var expected := TallyOf(history).expected;
            if mine == [] then k !in expected
            else k in expected && expected[k] == Successor(mine[|mine| - 1].sequenceNumber)
    ensures TallyOf(history).delivered == |history|
    decreases |history|
  {
    if history != [] {
      var before, m := history[..|history| - 1], history[|history| - 1];
      assert history == before + [m];
      ExpectedIsLastPlusOne(before, k);
      OfKeyConcat(before, [m], k);
    }
  }

  /** For any history whatsoever: the violations counted are the breaks of its keys, added up. */
  lemma {:induction false} ViolationsAreBreaks(history: seq<Message>, producers: nat, types: nat)
    requires forall m :: m in history ==> m.producerId < producers && m.msgType < types
    ensures TallyOf(history).violations == BreaksByKey(history, producers, types)
    decreases |history|
  {
    if history == [] {
      forall p | 0 <= p < producers ensures BreaksOfProducer(history, p, types) == 0 {
        SumZero(types, t => Breaks(OfKey(history, Key(p, t))));
      }
      SumZero(producers, p => BreaksOfProducer(history, p, types));
    } else {
      var before, m := history[..|history| - 1], history[|history| - 1];
      assert history == before + [m];
      ViolationsAreBreaks(before, producers, types);
      BreaksByKeyLast(before, m, producers, types);
    }
  }

  lemma BreaksByKeyLast(before: seq<Message>, m: Message, producers: nat, types: nat)
    requires m.producerId < producers && m.msgType < types
    ensures BreaksByKey(before + [m], producers, types) ==
            BreaksByKey(before, producers, types) + Process(TallyOf(before), m).violations - TallyOf(before).violations
  {
    var history := before + [m];
    var more := Process(TallyOf(before), m).violations - TallyOf(before).violations;
    ExpectedIsLastPlusOne(before, KeyOf(m));
    forall p: nat, t: nat
      ensures Breaks(OfKey(history, Key(p, t))) ==
              Breaks(OfKey(before, Key(p, t))) + (if Key(p, t) == KeyOf(m) then more else 0)
    {
      OfKeyConcat(before, [m], Key(p, t));
      if Key(p, t) == KeyOf(m) {
        BreaksLast(OfKey(before, Key(p, t)), Unstamped(m));
      } else {
        assert OfKey(history, Key(p, t)) == OfKey(before, Key(p, t));
      }
    }
    forall p | 0 <= p < producers && p != m.producerId
      ensures BreaksOfProducer(history, p, types) == BreaksOfProducer(before, p, types)
    {
      SumEqual(types, t => Breaks(OfKey(history, Key(p, t))), t => Breaks(OfKey(before, Key(p, t))));
    }
    var q := m.producerId;
    SumOneMore(types, t => Breaks(OfKey(before, Key(q, t))), t => Breaks(OfKey(history, Key(q, t))), m.msgType, more);
    SumOneMore(producers, p => BreaksOfProducer(before, p, types), p => BreaksOfProducer(history, p, types), q, more);
  }

  /** In an ascending stream every break is a gap: there are no more breaks than missing numbers. */
  lemma {:induction false} BreaksAtMostMissing(ms: seq<Message>)
    requires ms != [] && Ascending(ms)
    ensures Breaks(ms) <= ms[|ms| - 1].sequenceNumber - ms[0].sequenceNumber + 1 - |ms|
    decreases |ms|
  {
    if |ms| > 1 {
      BreaksAtMostMissing(ms[..|ms| - 1]);
    }
  }

  /** An ascending stream has no break exactly when its numbers are consecutive. */
  lemma {:induction false} NoBreaksIffConsecutive(ms: seq<Message>)
    requires ms != [] && Ascending(ms)
    ensures Breaks(ms) == 0 <==> ms[|ms| - 1].sequenceNumber - ms[0].sequenceNumber + 1 == |ms|
    decreases |ms|
  {
    if |ms| > 1 {
      NoBreaksIffConsecutive(ms[..|ms| - 1]);
      BreaksAtMostMissing(ms);
      BreaksAtMostMissing(ms[..|ms| - 1]);
    }
  }
}
