/**
 What a router and a processor make of a stream of messages: a message at a time, and as a whole. `taken` says what
 the consumers of their output queues take while they yield.
 */
module Routing {
  import opened Messages
  import opened Config
  import opened Retry
  import opened Sums

  datatype Stage = First | Second

  /** A router's routes, the capacity of its output queues, and what is taken from them meanwhile. */
  datatype Station = Station(config: SystemConfig, stage: Stage, capacity: nat, taken: Schedule) {

    /** Which output a message is routed to. */
    function RouteOf(m: Message): nat {
      if stage.First? then config.ProcessorFor(m.msgType) else config.StrategyFor(m.msgType)
    }
  }

  /** The output queues, and the router's two counters. */
  datatype Routed = Routed(outputs: seq<seq<Message>>, routed: nat, errors: nat)

  /** Message number `n` goes to the output it is routed to within 1000 tries, or is counted as an error. */
  function RouteOne(c: Station, r: Routed, m: Message, n: nat): (r': Routed)
    ensures |r'.outputs| == |r.outputs|
  {
    var to := c.RouteOf(m);
    if to < |r.outputs| then
      var (queue, sent) := Attempt(r.outputs[to], m, c.capacity, 1000, c.taken, n);
      Routed(r.outputs[to := queue], r.routed + (if sent then 1 else 0), r.errors + (if sent then 0 else 1))
    else Routed(r.outputs, r.routed, r.errors + 1)
  }

  /** A stream whose first message has number `n`. */
  function RouteAll(c: Station, r: Routed, ms: seq<Message>, n: nat): (r': Routed)
    ensures |r'.outputs| == |r.outputs|
  {
    if ms == [] then r
    else RouteOne(c, RouteAll(c, r, ms[..|ms| - 1], n), ms[|ms| - 1], n + |ms| - 1)
  }

  /**
   One message, with the configuration's lookups and the number of tries named: where it goes, what is counted, and that
   it is an error exactly if its target does not exist or its queue is full and nothing is taken from it before the
   last of the 1000 tries.
   */
  lemma MessageGoes(c: Station, r: Routed, m: Message, n: nat) returns (gone: nat)
    ensures var to := if c.stage.First? then c.config.ProcessorFor(m.msgType) else c.config.StrategyFor(m.msgType);
            var r' := RouteOne(c, r, m, n);
            if to >= |r.outputs| then r' == r.(errors := r.errors + 1)
            else if |r.outputs[to]| >= c.capacity && forall j :: 0 <= j < 999 ==> TakenAt(c.taken, n, j) == 0
            then gone <= |r.outputs[to]| &&
                 r' == r.(outputs := r.outputs[to := r.outputs[to][gone..]], errors := r.errors + 1)
            else gone <= |r.outputs[to]| &&
                 r' == r.(outputs := r.outputs[to := r.outputs[to][gone..] + [m]], routed := r.routed + 1)
  {
    var to := c.RouteOf(m);
    gone := 0;
    if to < |r.outputs| {
      GivenUpWhen(r.outputs[to], m, c.capacity, 1000, c.taken, n);
      gone := AttemptKeepsOrder(r.outputs[to], m, c.capacity, 1000, c.taken, n);
    }
  }

  lemma RouteLast(c: Station, r: Routed, ms: seq<Message>, m: Message, n: nat)
    ensures RouteAll(c, r, ms + [m], n) == RouteOne(c, RouteAll(c, r, ms, n), m, n + |ms|)
  {
    assert (ms + [m])[..|ms|] == ms;
  }

  lemma {:induction false} RouteAppend(c: Station, r: Routed, a: seq<Message>, b: seq<Message>, n: nat)
    ensures RouteAll(c, r, a + b, n) == RouteAll(c, RouteAll(c, r, a, n), b, n + |a|)
    decreases |b|
  {
    if b == [] {
      assert a + b == a;
    } else {
      RouteAppend(c, r, a, b[..|b| - 1], n);
      RouteLast(c, r, a + b[..|b| - 1], b[|b| - 1], n);
      assert a + b[..|b| - 1] + [b[|b| - 1]] == a + b;
    }
  }

  // ----- Several inputs -----

  /** The first `n` of several streams, one after the other. */
  function Flatten(streams: seq<seq<Message>>, n: nat): seq<Message>
    requires n <= |streams|
  {
    if n == 0 then [] else Flatten(streams, n - 1) + streams[n - 1]
  }

  /** The streams follow one another in order. */
  lemma {:induction false} FlattenInOrder(streams: seq<seq<Message>>, n: nat, i: nat)
    requires i < n <= |streams|
    ensures Flatten(streams, i) + streams[i] <= Flatten(streams, n)
  {
    if i < n - 1 {
      FlattenInOrder(streams, n - 1, i);
    }
  }

  /** The first `n` streams dealt with one after the other. */
  function RouteInputs(c: Station, r: Routed, streams: seq<seq<Message>>, n: nat): Routed
    requires n <= |streams|
  {
    if n == 0 then r
    else RouteAll(c, RouteInputs(c, r, streams, n - 1), streams[n - 1], |Flatten(streams, n - 1)|)
  }

  lemma {:induction false} RouteFlattened(c: Station, r: Routed, streams: seq<seq<Message>>, n: nat)
    requires n <= |streams|
    ensures RouteInputs(c, r, streams, n) == RouteAll(c, r, Flatten(streams, n), 0)
  {
    hide RouteOne;
    if n > 0 {
      RouteFlattened(c, r, streams, n - 1);
      RouteAppend(c, r, Flatten(streams, n - 1), streams[n - 1], 0);
    }
  }

  /** The streams without the first `n`. */
  function Emptied(streams: seq<seq<Message>>, n: nat): (r: seq<seq<Message>>)
    requires n <= |streams|
    ensures |r| == |streams|
  {
    if n == 0 then streams else Emptied(streams, n - 1)[n - 1 := []]
  }

  lemma {:induction false} EmptiedAt(streams: seq<seq<Message>>, n: nat, i: nat)
    requires n <= |streams| && i < |streams|
    ensures Emptied(streams, n)[i] == if i < n then [] else streams[i]
  {
    if n > 0 {
      EmptiedAt(streams, n - 1, i);
    }
  }

  // ----- What it comes to -----

  /** The messages routed to one output, in order. */
  function For(c: Station, to: nat, ms: seq<Message>): seq<Message> {
    if ms == [] then []
    else For(c, to, ms[..|ms| - 1]) + (if c.RouteOf(ms[|ms| - 1]) == to then [ms[|ms| - 1]] else [])
  }

  /** A stream without some of its messages. */
  ghost predicate IsPartOf(part: seq<Message>, ms: seq<Message>)
    decreases |ms|
  {
    part == ms
    || (ms != [] && IsPartOf(part, ms[..|ms| - 1]))
    || (ms != [] && part != [] && part[|part| - 1] == ms[|ms| - 1] && IsPartOf(part[..|part| - 1], ms[..|ms| - 1]))
  }

  lemma PartOfMore(part: seq<Message>, ms: seq<Message>, m: Message)
    requires IsPartOf(part, ms)
    ensures IsPartOf(part, ms + [m]) && IsPartOf(part + [m], ms + [m])
  {
    assert (ms + [m])[..|ms|] == ms && (part + [m])[..|part|] == part;
  }

  lemma SuffixMore(a: seq<Message>, b: seq<Message>, j: nat, k: nat, more: seq<Message>)
    requires j <= |a| + |b| && k <= |(a + b)[j..]|
    ensures (a + b)[j..][k..] + more == (a + (b + more))[j + k..]
  {
  }

  /** What is routed to an output are the messages for whose type the configuration's lookup names it. */
  lemma {:induction false} ForIsByConfig(c: Station, to: nat, ms: seq<Message>, m: Message)
    ensures var target := if c.stage.First? then c.config.ProcessorFor(m.msgType) else c.config.StrategyFor(m.msgType);
            multiset(For(c, to, ms))[m] == if target == to then multiset(ms)[m] else 0
    decreases |ms|
  {
    if ms != [] {
      ForIsByConfig(c, to, ms[..|ms| - 1], m);
      assert ms == ms[..|ms| - 1] + [ms[|ms| - 1]];
    }
  }

  /** A message gets into this output: it is the target, and has room before or within the tries. */
  ghost predicate GetsInto(c: Station, r: Routed, m: Message, n: nat, to: nat) {
    && to < |r.outputs|
    && to == (if c.stage.First? then c.config.ProcessorFor(m.msgType) else c.config.StrategyFor(m.msgType))
    && !(|r.outputs[to]| >= c.capacity && forall j :: 0 <= j < 999 ==> TakenAt(c.taken, n, j) == 0)
  }

  lemma OneOutput(c: Station, r: Routed, m: Message, n: nat, to: nat) returns (gone: nat)
    requires to < |r.outputs|
    ensures gone <= |r.outputs[to]|
    ensures RouteOne(c, r, m, n).outputs[to] ==
            r.outputs[to][gone..] + (if GetsInto(c, r, m, n, to) then [m] else [])
    ensures GetsInto(c, r, m, n, to) ==> c.RouteOf(m) == to
  {
    gone := MessageGoes(c, r, m, n);
    gone := if c.RouteOf(m) == to then gone else 0;
  }

  lemma OneCounted(c: Station, r: Routed, m: Message, n: nat)
    ensures var (r', to) := (RouteOne(c, r, m, n), c.RouteOf(m));
            && r'.routed == r.routed + (if GetsInto(c, r, m, n, to) then 1 else 0)
            && r'.errors == r.errors + (if GetsInto(c, r, m, n, to) then 0 else 1)
            && (GetsInto(c, r, m, n, to) ==> to < |r.outputs|)
            && forall u :: u != to ==> !GetsInto(c, r, m, n, u)
  {
    var gone := MessageGoes(c, r, m, n);
  }

  /** The messages of a stream that get into an output. */
  ghost function AcceptedBy(c: Station, r: Routed, ms: seq<Message>, n: nat, to: nat): seq<Message> {
    if ms == [] then []
    else
      var before, m := ms[..|ms| - 1], ms[|ms| - 1];
      AcceptedBy(c, r, before, n, to) +
      (if GetsInto(c, RouteAll(c, r, before, n), m, n + |before|, to) then [m] else [])
  }

  lemma NoMessages(c: Station, r: Routed, n: nat, to: nat)
    ensures RouteAll(c, r, [], n) == r && AcceptedBy(c, r, [], n, to) == [] && IsPartOf([], For(c, to, []))
  {
  }

  lemma LastMessage(c: Station, r: Routed, ms: seq<Message>, n: nat, to: nat)
    requires ms != []
    ensures var (before, m) := (ms[..|ms| - 1], ms[|ms| - 1]);
            var into := GetsInto(c, RouteAll(c, r, before, n), m, n + |before|, to);
            && RouteAll(c, r, ms, n) == RouteOne(c, RouteAll(c, r, before, n), m, n + |before|)
            && AcceptedBy(c, r, ms, n, to) == AcceptedBy(c, r, before, n, to) + (if into then [m] else [])
            && For(c, to, ms) == For(c, to, before) + (if c.RouteOf(m) == to then [m] else [])
  {
  }

  /**
   Whatever is taken meanwhile: an output holds the end of what it held before followed by the messages that got into
   it, which are some of those routed to it, in their order.
   */
  lemma {:induction false} OutputsKeepOrder(c: Station, r: Routed, ms: seq<Message>, n: nat, to: nat)
    returns (gone: nat)
    requires to < |r.outputs|
    ensures var accepted := AcceptedBy(c, r, ms, n, to);
            && IsPartOf(accepted, For(c, to, ms)) && gone <= |r.outputs[to] + accepted|
            && RouteAll(c, r, ms, n).outputs[to] == (r.outputs[to] + accepted)[gone..]
    decreases |ms|
  {
    hide RouteOne, RouteAll, AcceptedBy, For, IsPartOf, GetsInto, Station.RouteOf;
    if ms == [] {
      NoMessages(c, r, n, to);
      gone := 0;
      assert r.outputs[to] + [] == r.outputs[to];
    } else {
      var before, m := ms[..|ms| - 1], ms[|ms| - 1];
      var accepted, r1 := AcceptedBy(c, r, before, n, to), RouteAll(c, r, before, n);
      gone := OutputsKeepOrder(c, r, before, n, to);
      LastMessage(c, r, ms, n, to);
      var k := OneOutput(c, r1, m, n + |before|, to);
      PartOfMore(accepted, For(c, to, before), m);
      SuffixMore(r.outputs[to], accepted, gone, k, if GetsInto(c, r1, m, n + |before|, to) then [m] else []);
      assert For(c, to, before) + [] == For(c, to, before) && accepted + [] == accepted;
      gone := gone + k;
    }
  }

  /** The routed messages are those that got into the outputs, over all of them; all others are errors. */
  lemma {:induction false} CountersAreExact(c: Station, r: Routed, ms: seq<Message>, n: nat)
    ensures var (r', accepted) := (RouteAll(c, r, ms, n), SumTo(|r.outputs|, to => |AcceptedBy(c, r, ms, n, to)|));
            r'.routed == r.routed + accepted && r'.errors == r.errors + |ms| - accepted
    decreases |ms|
  {
    hide RouteOne, RouteAll, AcceptedBy, GetsInto, Station.RouteOf;
    if ms == [] {
      NoMessages(c, r, n, 0);
      forall to: nat ensures AcceptedBy(c, r, ms, n, to) == [] {
        NoMessages(c, r, n, to);
      }
      SumZero(|r.outputs|, to => |AcceptedBy(c, r, ms, n, to)|);
    } else {
      var before, m := ms[..|ms| - 1], ms[|ms| - 1];
      CountersAreExact(c, r, before, n);
      var r1, to := RouteAll(c, r, before, n), c.RouteOf(m);
      LastMessage(c, r, ms, n, to);
      OneCounted(c, r1, m, n + |before|);
      forall u: nat ensures |AcceptedBy(c, r, ms, n, u)| == |AcceptedBy(c, r, before, n, u)| +
                            (if u == to && GetsInto(c, r1, m, n + |before|, to) then 1 else 0)
      {
        LastMessage(c, r, ms, n, u);
      }
      if GetsInto(c, r1, m, n + |before|, to) {
        SumOneMore(|r.outputs|, to => |AcceptedBy(c, r, before, n, to)|, to => |AcceptedBy(c, r, ms, n, to)|, to, 1);
      } else {
        SumEqual(|r.outputs|, to => |AcceptedBy(c, r, before, n, to)|, to => |AcceptedBy(c, r, ms, n, to)|);
      }
    }
  }

  /** As much of a stream as there is room for. */
  function FirstOf(ms: seq<Message>, capacity: nat): seq<Message> {
    if |ms| <= capacity then ms else ms[..capacity]
  }

  /**
   While nothing is taken, each output ends up with what it had and its own messages in order of arrival, as far as
   it has room.
   */
  lemma {:induction false} OutputsAreFirstCome(c: Station, r: Routed, ms: seq<Message>, n: nat, to: nat)
    requires to < |r.outputs| && |r.outputs[to]| <= c.capacity && c.taken == []
    ensures RouteAll(c, r, ms, n).outputs[to] == FirstOf(r.outputs[to] + For(c, to, ms), c.capacity)
    decreases |ms|
  {
    if ms == [] {
      assert r.outputs[to] + [] == r.outputs[to];
    } else {
      var before, m := ms[..|ms| - 1], ms[|ms| - 1];
      OutputsAreFirstCome(c, r, before, n, to);
      AppendAndCut(r.outputs[to], For(c, to, before), m, c.capacity);
      AttemptWhileStill(RouteAll(c, r, before, n).outputs[to], m, c.capacity, 1000, n + |before|);
      assert For(c, to, before) + [] == For(c, to, before);
    }
  }

  lemma AppendAndCut(a: seq<Message>, b: seq<Message>, m: Message, capacity: nat)
    requires |a| <= capacity
    ensures FirstOf(a + (b + [m]), capacity) ==
            if |FirstOf(a + b, capacity)| < capacity then FirstOf(a + b, capacity) + [m] else FirstOf(a + b, capacity)
  {
    assert a + (b + [m]) == a + b + [m];
  }

  /** A queue of some capacity once the first `n` messages of a stream were offered to it, one by one. */
  function Offer(queue: seq<Message>, ms: seq<Message>, n: nat, capacity: nat): seq<Message>
    requires n <= |ms|
  {
    if n == 0 then queue else FirstOf(Offer(queue, ms, n - 1, capacity) + [ms[n - 1]], capacity)
  }

  /** The next message goes in if there is room. */
  lemma OfferNext(queue: seq<Message>, ms: seq<Message>, n: nat, capacity: nat)
    requires n < |ms| && |Offer(queue, ms, n, capacity)| <= capacity
    ensures var before := Offer(queue, ms, n, capacity);
            Offer(queue, ms, n + 1, capacity) == before + (if |before| < capacity then [ms[n]] else [])
  {
  }

  /** It takes the first ones, as far as it has room. */
  lemma {:induction false} OfferedFirstCome(queue: seq<Message>, ms: seq<Message>, n: nat, capacity: nat)
    requires n <= |ms| && |queue| <= capacity
    ensures Offer(queue, ms, n, capacity) == FirstOf(queue + ms[..n], capacity)
  {
    if n == 0 {
      assert queue + ms[..0] == queue;
    } else {
      OfferedFirstCome(queue, ms, n - 1, capacity);
      assert ms[..n] == ms[..n - 1] + [ms[n - 1]];
      AppendAndCut(queue, ms[..n - 1], ms[n - 1], capacity);
      OfferNext(queue, ms, n - 1, capacity);
    }
  }

  /** Two streams one after the other, or at once. */
  lemma CutAppend(a: seq<Message>, b: seq<Message>, d: seq<Message>, capacity: nat)
    requires |a| <= capacity
    ensures FirstOf(FirstOf(a + b, capacity) + d, capacity) == FirstOf(a + (b + d), capacity)
  {
    if |a + b| <= capacity {
      assert a + b + d == a + (b + d);
    } else {
      var all := a + (b + d);
      assert all[..capacity] == (a + b)[..capacity];
      assert ((a + b)[..capacity] + d)[..capacity] == (a + b)[..capacity];
    }
  }
}
