/** A strategy thread's object: the final consumer and its ordering check. */
module Strategy {
  import opened MachineWords
  import opened Messages
  import opened SpscQueue
  import opened StrategyMonitor
  import opened Arrivals

  class Strategy {
    const inputQueue: LockFreeSpscQueue<Message>
    var expectedSequence: map<Key, Word>
    var orderingViolations: nat
    var messagesDelivered: nat

    /** Every message delivered so far, in order. */
    ghost var history: seq<Message>

    ghost predicate Valid()
      reads this, inputQueue, inputQueue.buffer
    {
      && inputQueue.Valid()
      && TallyOf(history) == Tally(expectedSequence, orderingViolations, messagesDelivered)
    }

    constructor (inputQueue: LockFreeSpscQueue<Message>)
      requires inputQueue.Valid()
      ensures Valid() && history == [] && this.inputQueue == inputQueue
    {
      this.inputQueue := inputQueue;
      expectedSequence, orderingViolations, messagesDelivered := map[], 0, 0;
      history := [];
    }

    /** Delivers one message: marks a violation without blocking, and expects the number after this one. */
    method ProcessMessage(m: Message)
      requires Valid()
      modifies this
      ensures Valid() && history == old(history) + [m]
      ensures messagesDelivered == old(messagesDelivered) + 1
      ensures orderingViolations == old(orderingViolations) +
                (var mine := OfKey(old(history), KeyOf(m));
                 if mine != [] && m.sequenceNumber != Successor(mine[|mine| - 1].sequenceNumber) then 1 else 0)
    {
      TallyLast(history, m);
      ExpectedIsLastPlusOne(history, KeyOf(m));

      var key := KeyOf(m);
      if key !in expectedSequence {
        expectedSequence := expectedSequence[key := Successor(m.sequenceNumber)];
      } else {
        if m.sequenceNumber != expectedSequence[key] {
          orderingViolations := orderingViolations + 1;
        }
        expectedSequence := expectedSequence[key := Successor(m.sequenceNumber)];
      }
      messagesDelivered := messagesDelivered + 1;
      history := history + [m];
    }

    /**
     One iteration of `strategy_loop`: everything the input queue holds and is sent before a pop finds nothing is
     delivered, in order.
     */
    method StrategyPass(feed: Feed)
      requires Valid()
      modifies this, inputQueue, inputQueue.buffer
      ensures Valid() && inputQueue.contents == []
      ensures history == old(history) + Stream(old(inputQueue.contents), feed, 0, inputQueue.size - 1)
    {
      inputQueue.Bounded();
      hide LockFreeSpscQueue.Valid;
      ghost var all := history + Stream(inputQueue.contents, feed, 0, inputQueue.size - 1);
      var message := PopNext(inputQueue, feed, 0);
      var pops := 1;
      while message.Some?
        invariant Valid()
        invariant message.None? ==> inputQueue.contents == []
        invariant history + Coming(message, inputQueue.contents, feed, pops, inputQueue.size - 1) == all
        decreases |all| - |history|
      {
        ProcessMessage(message.value);
        message := PopNext(inputQueue, feed, pops);
        pops := pops + 1;
      }
    }
  }
}
