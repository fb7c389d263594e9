/** A producer thread's object. Of the other threads, an iteration sees the consumer of its queue, in the yields. */
module Producer {
  import opened MachineWords
  import opened Messages
  import opened SpscQueue
  import opened Retry

  /** Messages numbered from 1 across all types, each at least an interval after the one before. */
  ghost predicate PacedFromOne(made: seq<Message>, id: nat, interval: nat) {
    && (forall i :: 0 <= i < |made| ==>
          made[i].producerId == id && made[i].sequenceNumber == i + 1 && made[i] == Unstamped(made[i]))
    && (forall i :: 0 < i < |made| ==> made[i].timestamp >= made[i - 1].timestamp + interval)
  }

  lemma OneMorePaced(made: seq<Message>, m: Message, id: nat, interval: nat)
    requires PacedFromOne(made, id, interval)
    requires m.producerId == id && m.sequenceNumber == |made| + 1 && m == Unstamped(m)
    requires made != [] ==> m.timestamp >= made[|made| - 1].timestamp + interval
    ensures PacedFromOne(made + [m], id, interval)
  {
  }

  class Producer {
    const id: nat
    const interval: nat
    const outputQueue: LockFreeSpscQueue<Message>
    var nextSequence: Word
    var nextMessageTime: int
    var messagesProduced: nat

    /** Every message made so far, sent or not. */
    ghost var made: seq<Message>

    /** How many of them found the queue full at every try. */
    ghost var dropped: nat

    /** Messages are numbered from 1 across all types and lie an interval apart, and each was counted or dropped. */
    ghost predicate Valid()
      reads this, outputQueue, outputQueue.buffer
    {
      && outputQueue.Valid()
      && nextSequence == |made| + 1
      && PacedFromOne(made, id, interval)
      && (made != [] ==> nextMessageTime == made[|made| - 1].timestamp + interval)
      && |made| == messagesProduced + dropped
    }

    constructor (id: nat, messagesPerSec: int, startTime: int, outputQueue: LockFreeSpscQueue<Message>)
      requires outputQueue.Valid()
      ensures Valid() && made == [] && nextMessageTime == startTime
      ensures this.id == id && this.outputQueue == outputQueue
      ensures interval == if messagesPerSec > 0 then 1000000000 / messagesPerSec else 0
    {
      this.id, this.outputQueue := id, outputQueue;
      interval := if messagesPerSec > 0 then 1000000000 / messagesPerSec else 0;
      nextSequence, nextMessageTime, messagesProduced := 1, startTime, 0;
      made, dropped := [], 0;
    }

    /**
     One iteration of `producer_loop`: if the time has come, a message of a random type is made and offered within
     100 tries, and counted if one succeeds.
     */
    method ProducerPass(now: int, msgType: nat, taken: Schedule)
      requires Valid() && nextSequence + 1 < TWO_TO_THE_64
      modifies this, outputQueue, outputQueue.buffer
      ensures Valid()
      ensures now < old(nextMessageTime) ==> made == old(made) && nextMessageTime == old(nextMessageTime)
      ensures now < old(nextMessageTime) ==>
                outputQueue.contents == old(outputQueue.contents) && messagesProduced == old(messagesProduced)
      ensures now >= old(nextMessageTime) ==>
                && made == old(made) + [Fresh(msgType, id, |old(made)| + 1, now)] && nextMessageTime == now + interval
                && var (queue, sent) :=
                     Attempt(old(outputQueue.contents), made[|made| - 1], outputQueue.size - 1, 100, taken, |made| - 1);
                   outputQueue.contents == queue && messagesProduced == old(messagesProduced) + (if sent then 1 else 0)
    {
      hide LockFreeSpscQueue.Valid, Attempt;
      if now >= nextMessageTime {
        var message := Fresh(msgType, id, nextSequence, now);
        OneMorePaced(made, message, id, interval);
        nextSequence := Successor(nextSequence);
        var sent := PushWithin(outputQueue, message, 100, taken, nextSequence - 2);
        if sent {
          messagesProduced := messagesProduced + 1;
        } else {
          dropped := dropped + 1;
        }
        nextMessageTime := now + interval;
        made := made + [message];
      }
    }
  }
}
