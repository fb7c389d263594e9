/**
 The two routers. They differ only in the lookup they route by, so one class stands for both. Of the other threads,
 a pass sees the producers of its input queues, before each pop (what arrives at another input in the meantime is what
 its next pop finds), and the consumers of its output queues, in the yields.
 */
module Router {
  import opened Wrappers
  import opened Messages
  import opened Config
  import opened QueueVector
  import opened Retry
  import opened Routing
  import opened Arrivals

  class Router {
    const config: SystemConfig
    const stage: Stage
    const inputs: QueueVector
    const outputs: QueueVector
    var messagesRouted: nat
    var routingErrors: nat

    ghost predicate Valid()
      reads this, inputs, inputs.footprint, outputs, outputs.footprint
    {
      && inputs.Valid() && outputs.Valid()
      && inputs != outputs && inputs !in outputs.footprint && outputs !in inputs.footprint
      && this !in inputs.footprint && this !in outputs.footprint
      && inputs.footprint !! outputs.footprint
    }

    /** What this router has made of its messages so far. */
    ghost function Result(): Routed
      reads this, outputs
    {
      Routed(outputs.contents, messagesRouted, routingErrors)
    }

    ghost function Here(taken: Schedule): Station
      requires outputs.size > 0
    {
      Station(config, stage, outputs.size - 1, taken)
    }

    constructor (config: SystemConfig, stage: Stage, inputs: QueueVector, outputs: QueueVector)
      requires inputs.Valid() && outputs.Valid()
      requires inputs != outputs && inputs !in outputs.footprint && outputs !in inputs.footprint
      requires inputs.footprint !! outputs.footprint
      ensures Valid() && Result() == Routed(outputs.contents, 0, 0)
      ensures this.config == config && this.stage == stage && this.inputs == inputs && this.outputs == outputs
    {
      this.config, this.stage, this.inputs, this.outputs := config, stage, inputs, outputs;
      messagesRouted, routingErrors := 0, 0;
    }

    /** Sends message number `n` of this pass to where it is routed, or counts an error. */
    method Send(m: Message, taken: Schedule, n: nat)
      requires Valid()
      modifies this, outputs, outputs.footprint
      ensures Valid() && inputs.contents == old(inputs.contents)
      ensures Result() == RouteOne(Here(taken), old(Result()), m, n)
      ensures var to := if stage.First? then config.ProcessorFor(m.msgType) else config.StrategyFor(m.msgType);
              if to >= |outputs.queues|
              then Result() == old(Result()).(errors := old(routingErrors) + 1)
              else
                var (queue, sent) := Attempt(old(outputs.contents[to]), m, outputs.size - 1, 1000, taken, n);
                && outputs.contents == old(outputs.contents)[to := queue]
                && messagesRouted == old(messagesRouted) + (if sent then 1 else 0)
                && routingErrors == old(routingErrors) + (if sent then 0 else 1)
    {
      var to := if stage.First? then config.ProcessorFor(m.msgType) else config.StrategyFor(m.msgType);
      if to < |outputs.queues| {
        var sent := outputs.PushTo(to, m, 1000, taken, n);
        if sent {
          messagesRouted := messagesRouted + 1;
        } else {
          routingErrors := routingErrors + 1;
        }
      } else {
        routingErrors := routingErrors + 1;
      }
    }

    /** Pop `k` from input `i`. */
    method Receive(i: nat, feed: Feed, k: nat) returns (message: Option<Message>)
      requires Valid() && i < |inputs.queues|
      modifies inputs, inputs.footprint
      ensures Valid() && Result() == old(Result())
      ensures inputs.size > 1 && |inputs.contents| == |old(inputs.contents)|
      ensures inputs.contents == old(inputs.contents)[i := inputs.contents[i]]
      ensures message.None? ==> inputs.contents[i] == []
      ensures Coming(message, inputs.contents[i], feed, k + 1, inputs.size - 1) ==
              Stream(old(inputs.contents[i]), feed, k, inputs.size - 1)
    {
      hide Stream, Coming;
      message := inputs.PopFrom(i, feed, k);
    }

    /**
     The first `n` messages of one input's pass have been dealt with; the next one, if there is one, is taken, and the
     others are still to come. The other inputs are as they were.
     */
    ghost predicate Midway(given: seq<seq<Message>>, i: nat, all: seq<Message>, start: Routed, n: nat,
                           message: Option<Message>, feed: Feed, taken: Schedule, first: nat)
      reads this, inputs, inputs.footprint, outputs, outputs.footprint
    {
      && Valid() && i < |inputs.contents| == |given| && n <= |all|
      && all[n..] == Coming(message, inputs.contents[i], feed, n + 1, inputs.size - 1)
      && (message.None? ==> inputs.contents[i] == [])
      && inputs.contents == given[i := inputs.contents[i]]
      && Result() == RouteAll(Here(taken), start, all[..n], first)
    }

    /** Sends the message taken, and takes the next. */
    method Route(m: Message, i: nat, feed: Feed, taken: Schedule, n: nat, first: nat, ghost given: seq<seq<Message>>,
                 ghost all: seq<Message>, ghost start: Routed)
      returns (next: Option<Message>)
      requires Midway(given, i, all, start, n, Some(m), feed, taken, first)
      modifies this, inputs, inputs.footprint, outputs, outputs.footprint
      ensures Midway(given, i, all, start, n + 1, next, feed, taken, first)
    {
      ComingNext(all, n, m, inputs.contents[i], feed, n + 1, inputs.size - 1);
      RouteLast(Here(taken), start, all[..n], m, first);
      assert outputs.size > 0 && inputs.size > 1 && |inputs.contents| == |inputs.queues|;
      hide Valid, RouteOne, RouteAll, Stream, Coming;
      Send(m, taken, first + n);
      next := Receive(i, feed, n + 1);
    }

    /** Takes and sends messages from one input until a pop finds nothing; the first one has number `first`. */
    method DrainInput(i: nat, feed: Feed, taken: Schedule, first: nat) returns (count: nat)
      requires Valid() && i < |inputs.queues|
      modifies this, inputs, inputs.footprint, outputs, outputs.footprint
      ensures Valid() && inputs.contents == old(inputs.contents[i := []])
      ensures var all := Stream(old(inputs.contents[i]), feed, 0, inputs.size - 1);
              count == |all| && Result() == RouteAll(Here(taken), old(Result()), all, first)
    {
      ghost var given, start := inputs.contents, Result();
      ghost var all := Stream(given[i], feed, 0, inputs.size - 1);
      count := 0;
      var message := Receive(i, feed, 0);
      while message.Some?
        invariant Midway(given, i, all, start, count, message, feed, taken, first)
        decreases |all| - count
      {
        message := Route(message.value, i, feed, taken, count, first, given, all, start);
        count := count + 1;
      }
      assert all[..count] == all;
    }

    /** The first `i` inputs have been dealt with, `n` messages in all. */
    ghost predicate Scanned(given: seq<seq<Message>>, feeds: seq<Feed>, start: Routed, i: nat, n: nat, taken: Schedule)
      reads this, inputs, inputs.footprint, outputs, outputs.footprint
    {
      && Valid() && i <= |inputs.queues| == |inputs.contents| == |given|
      && inputs.contents == Emptied(given, i)
      && var all := Streams(given, feeds, inputs.size - 1);
         n == |Flatten(all, i)| && Result() == RouteInputs(Here(taken), start, all, i)
    }

    lemma ScanBegins(feeds: seq<Feed>, taken: Schedule)
      requires Valid()
      ensures Scanned(inputs.contents, feeds, Result(), 0, 0, taken) && |inputs.queues| == |inputs.contents|
    {
    }

    /** All inputs have been dealt with: it comes to their streams, one after the other. */
    lemma ScanEnds(given: seq<seq<Message>>, feeds: seq<Feed>, start: Routed, i: nat, n: nat, taken: Schedule)
      requires Scanned(given, feeds, start, i, n, taken) && i >= |inputs.queues|
      ensures Valid() && inputs.contents == Emptied(given, |given|)
      ensures var all := Streams(given, feeds, inputs.size - 1);
              n == |Flatten(all, |all|)| && Result() == RouteAll(Here(taken), start, Flatten(all, |all|), 0)
    {
      RouteFlattened(Here(taken), start, Streams(given, feeds, inputs.size - 1), i);
    }

    /** Deals with the next input. */
    method ScanInput(i: nat, feeds: seq<Feed>, taken: Schedule, n: nat, ghost given: seq<seq<Message>>,
                     ghost start: Routed)
      returns (count: nat)
      requires Scanned(given, feeds, start, i, n, taken) && i < |given|
      modifies this, inputs, inputs.footprint, outputs, outputs.footprint
      ensures Scanned(given, feeds, start, i + 1, n + count, taken)
    {
      EmptiedAt(given, i, i);
      hide Valid, RouteAll, Stream;
      count := DrainInput(i, if i < |feeds| then feeds[i] else [], taken, n);
    }

    /**
     One iteration of `routing_loop`, the first input first: everything an input holds and is sent before a pop finds
     nothing is dealt with.
     */
    method RoutingPass(feeds: seq<Feed>, taken: Schedule) returns (foundMessage: bool)
      requires Valid()
      modifies this, inputs, inputs.footprint, outputs, outputs.footprint
      ensures Valid() && inputs.contents == Emptied(old(inputs.contents), |old(inputs.contents)|)
      ensures var all := Streams(old(inputs.contents), feeds, inputs.size - 1);
              && Result() == RouteAll(Here(taken), old(Result()), Flatten(all, |all|), 0)
              && (foundMessage <==> Flatten(all, |all|) != [])
    {
      ghost var given, start := inputs.contents, Result();
      ScanBegins(feeds, taken);
      hide *;
      foundMessage := false;
      var i, n := 0, 0;
      while i < |inputs.queues|
        invariant |inputs.queues| == |given| && Scanned(given, feeds, start, i, n, taken)
        invariant foundMessage <==> n > 0
      {
        var count := ScanInput(i, feeds, taken, n, given, start);
        foundMessage := foundMessage || count > 0;
        i, n := i + 1, n + count;
      }
      ScanEnds(given, feeds, start, i, n, taken);
    }
  }
}
