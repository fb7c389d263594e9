/**
 A processor thread's object. Of the other threads, a pass sees the producer of its input queue, before each pop, and
 the consumer of its output queue, in the yields.
 */
module Processor {
  import opened Wrappers
  import opened Messages
  import opened SpscQueue
  import opened Retry
  import opened Routing
  import opened Arrivals

  /** The messages with this processor's stamp, the clock read once for each. */
  function StampAll(ms: seq<Message>, processor: nat, clock: nat -> int): (r: seq<Message>)
    ensures |r| == |ms|
  {
    seq(|ms|, i requires 0 <= i < |ms| => Stamped(ms[i], processor, clock(i)))
  }

  lemma StampAt(ms: seq<Message>, i: nat, processor: nat, clock: nat -> int)
    requires i < |ms|
    ensures StampAll(ms, processor, clock)[i] == Stamped(ms[i], processor, clock(i))
    ensures Stamped(ms[i], processor, clock(i)) == ms[i].(processorId := processor, processingTimestamp := clock(i))
  {
  }

  /** The output queue, and the counter. */
  datatype Sent = Sent(queue: seq<Message>, count: nat)

  /** The first `n` messages of a stream are offered, each within 1000 tries, and counted if one succeeds. */
  function SendFirst(s: Sent, ms: seq<Message>, n: nat, capacity: nat, taken: Schedule): Sent
    requires n <= |ms|
  {
    if n == 0 then s
    else
      var before := SendFirst(s, ms, n - 1, capacity, taken);
      var (queue, sent) := Attempt(before.queue, ms[n - 1], capacity, 1000, taken, n - 1);
      Sent(queue, before.count + (if sent then 1 else 0))
  }

  /** The output queue holds the end of what it held before followed by the messages that were counted, in order. */
  lemma {:induction false} SentInOrder(s: Sent, ms: seq<Message>, n: nat, capacity: nat, taken: Schedule)
    returns (accepted: seq<Message>, gone: nat)
    requires n <= |ms|
    ensures IsPartOf(accepted, ms[..n]) && gone <= |s.queue + accepted|
    ensures SendFirst(s, ms, n, capacity, taken) == Sent((s.queue + accepted)[gone..], s.count + |accepted|)
  {
    hide Attempt;
    if n == 0 {
      accepted, gone := [], 0;
      assert s.queue + [] == s.queue;
    } else {
      accepted, gone := SentInOrder(s, ms, n - 1, capacity, taken);
      var before, m := SendFirst(s, ms, n - 1, capacity, taken), ms[n - 1];
      var k := AttemptKeepsOrder(before.queue, m, capacity, 1000, taken, n - 1);
      var sent := Attempt(before.queue, m, capacity, 1000, taken, n - 1).1;
      assert ms[..n] == ms[..n - 1] + [m];
      PartOfMore(accepted, ms[..n - 1], m);
      SuffixMore(s.queue, accepted, gone, k, if sent then [m] else []);
      assert accepted + [] == accepted;
      accepted, gone := accepted + (if sent then [m] else []), gone + k;
    }
  }

  /** While nothing is taken, what fits is sent and the rest is gone without being counted. */
  lemma {:induction false} SentWhileStill(s: Sent, ms: seq<Message>, n: nat, capacity: nat)
    requires n <= |ms| && |s.queue| <= capacity
    ensures var s' := SendFirst(s, ms, n, capacity, []);
            s'.queue == FirstOf(s.queue + ms[..n], capacity) && s'.count - s.count == |s'.queue| - |s.queue|
  {
    if n == 0 {
      assert s.queue + ms[..0] == s.queue;
    } else {
      SentWhileStill(s, ms, n - 1, capacity);
      assert ms[..n] == ms[..n - 1] + [ms[n - 1]];
      AppendAndCut(s.queue, ms[..n - 1], ms[n - 1], capacity);
      AttemptWhileStill(SendFirst(s, ms, n - 1, capacity, []).queue, ms[n - 1], capacity, 1000, n - 1);
    }
  }

  class Processor {
    const id: nat
    const inputQueue: LockFreeSpscQueue<Message>
    const outputQueue: LockFreeSpscQueue<Message>
    var messagesProcessed: nat

    ghost predicate Valid()
      reads this, inputQueue, inputQueue.buffer, outputQueue, outputQueue.buffer
    {
      && inputQueue.Valid() && outputQueue.Valid()
      && inputQueue != outputQueue && inputQueue.buffer != outputQueue.buffer
    }

    constructor (id: nat, inputQueue: LockFreeSpscQueue<Message>, outputQueue: LockFreeSpscQueue<Message>)
      requires inputQueue.Valid() && outputQueue.Valid()
      requires inputQueue != outputQueue && inputQueue.buffer != outputQueue.buffer
      ensures Valid() && messagesProcessed == 0
      ensures this.id == id && this.inputQueue == inputQueue && this.outputQueue == outputQueue
    {
      this.id, this.inputQueue, this.outputQueue := id, inputQueue, outputQueue;
      messagesProcessed := 0;
    }

    /** Pushes message number `n` of this pass within 1000 tries, and counts it only if one succeeds. */
    method Send(m: Message, taken: Schedule, n: nat)
      requires Valid()
      modifies this, outputQueue, outputQueue.buffer
      ensures Valid() && inputQueue.contents == old(inputQueue.contents)
      ensures var (queue, sent) := Attempt(old(outputQueue.contents), m, outputQueue.size - 1, 1000, taken, n);
              outputQueue.contents == queue && messagesProcessed == old(messagesProcessed) + (if sent then 1 else 0)
    {
      var sent := PushWithin(outputQueue, m, 1000, taken, n);
      if sent {
        messagesProcessed := messagesProcessed + 1;
      }
    }

    /** Pop `k` of this pass. */
    method Receive(feed: Feed, k: nat) returns (message: Option<Message>)
      requires Valid()
      modifies inputQueue, inputQueue.buffer
      ensures Valid() && outputQueue.contents == old(outputQueue.contents)
      ensures inputQueue.size > 1 && (message.None? ==> inputQueue.contents == [])
      ensures Coming(message, inputQueue.contents, feed, k + 1, inputQueue.size - 1) ==
              Stream(old(inputQueue.contents), feed, k, inputQueue.size - 1)
    {
      hide LockFreeSpscQueue.Valid, Stream, Coming;
      inputQueue.Bounded();
      message := PopNext(inputQueue, feed, k);
    }

    /**
     The first `n` messages of the pass have been dealt with; the next one, if there is one, is taken, and the others
     are still to come.
     */
    ghost predicate Midway(all: seq<Message>, start: Sent, n: nat, message: Option<Message>,
                           feed: Feed, clock: nat -> int, taken: Schedule)
      reads this, inputQueue, inputQueue.buffer, outputQueue, outputQueue.buffer
    {
      && Valid() && inputQueue.size > 1 && outputQueue.size > 1 && n <= |all|
      && all[n..] == Coming(message, inputQueue.contents, feed, n + 1, inputQueue.size - 1)
      && (message.None? ==> inputQueue.contents == [])
      && Sent(outputQueue.contents, messagesProcessed) ==
         SendFirst(start, StampAll(all, id, clock), n, outputQueue.size - 1, taken)
    }

    /** Stamps and sends the message taken, and takes the next. */
    method Process(m: Message, feed: Feed, clock: nat -> int, taken: Schedule, n: nat, ghost all: seq<Message>,
                   ghost start: Sent)
      returns (next: Option<Message>)
      requires Midway(all, start, n, Some(m), feed, clock, taken)
      modifies this, inputQueue, inputQueue.buffer, outputQueue, outputQueue.buffer
      ensures Midway(all, start, n + 1, next, feed, clock, taken)
    {
      ComingNext(all, n, m, inputQueue.contents, feed, n + 1, inputQueue.size - 1);
      StampAt(all, n, id, clock);
      hide Valid, Attempt, StampAll, Stream, Coming;
      Send(Stamped(m, id, clock(n)), taken, n);
      next := Receive(feed, n + 1);
    }

    /**
     One iteration of `processor_loop`: everything the input queue holds and is sent before a pop finds nothing is
     stamped and offered to the output queue, in order.
     */
    method ProcessorPass(feed: Feed, clock: nat -> int, taken: Schedule)
      requires Valid()
      modifies this, inputQueue, inputQueue.buffer, outputQueue, outputQueue.buffer
      ensures Valid() && inputQueue.contents == []
      ensures var all := Stream(old(inputQueue.contents), feed, 0, inputQueue.size - 1);
              Sent(outputQueue.contents, messagesProcessed) ==
              SendFirst(old(Sent(outputQueue.contents, messagesProcessed)), StampAll(all, id, clock), |all|,
                        outputQueue.size - 1, taken)
    {
      inputQueue.Bounded();
      outputQueue.Bounded();
      hide LockFreeSpscQueue.Valid, Stream, StampAll;
      ghost var all := Stream(inputQueue.contents, feed, 0, inputQueue.size - 1);
      ghost var start := Sent(outputQueue.contents, messagesProcessed);
      var message := Receive(feed, 0);
      var n := 0;
      while message.Some?
        invariant Midway(all, start, n, message, feed, clock, taken)
        decreases |all| - n
      {
        message := Process(message.value, feed, clock, taken, n, all, start);
        n := n + 1;
      }
    }
  }
}
