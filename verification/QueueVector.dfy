/** A vector of queues, none of which shares anything with another. */
module QueueVector {
  import opened MachineWords
  import opened Wrappers
  import opened Messages
  import opened SpscMachine
  import opened SpscQueue
  import opened Retry
  import opened Arrivals

  class QueueVector {
    const size: nat
    const queues: seq<LockFreeSpscQueue<Message>>

    /** What the queues hold. */
    ghost var contents: seq<seq<Message>>

    /** Every object of every queue. */
    ghost const footprint: set<object>

    ghost predicate Valid()
      reads this, footprint
    {
      && this !in footprint && size > 1
      && |contents| == |queues|
      && (forall i :: 0 <= i < |queues| ==> queues[i] in footprint && queues[i].buffer in footprint)
      && (forall i :: 0 <= i < |queues| ==>
            queues[i].Valid() && queues[i].size == size && contents[i] == queues[i].contents)
      && (forall i, j :: 0 <= i < j < |queues| ==> queues[i] != queues[j] && queues[i].buffer != queues[j].buffer)
    }

    /** `count` empty queues. */
    constructor (count: nat, size: nat, blank: Message)
      requires ValidSize(size) && size <= TWO_TO_THE_64
      ensures Valid() && fresh(footprint) && this.size == size
      ensures contents == seq(count, i => [])
    {
      var made: seq<LockFreeSpscQueue<Message>> := [];
      ghost var objects: set<object> := {};
      var i := 0;
      while i < count
        invariant i <= count && |made| == i
        invariant fresh(objects)
        invariant forall j :: 0 <= j < i ==> made[j] in objects && made[j].buffer in objects
        invariant forall j :: 0 <= j < i ==> made[j].Valid() && made[j].size == size && made[j].contents == []
        invariant forall j, k :: 0 <= j < k < i ==> made[j] != made[k] && made[j].buffer != made[k].buffer
      {
        var q := new LockFreeSpscQueue<Message>(size, blank);
        made := made + [q];
        objects := objects + {q, q.buffer};
        i := i + 1;
      }
      this.size, queues, footprint := size, made, objects;
      contents := seq(count, i => []);
    }

    /** Pushes to queue `i` within so many tries, while its consumer takes what `taken` says. */
    method PushTo(i: nat, m: Message, tries: nat, taken: Schedule, n: nat) returns (sent: bool)
      requires Valid() && i < |queues| && tries > 0
      modifies this, footprint
      ensures Valid()
      ensures var r := Attempt(old(contents[i]), m, size - 1, tries, taken, n);
              contents == old(contents)[i := r.0] && sent == r.1
    {
      sent := PushWithin(queues[i], m, tries, taken, n);
      contents := contents[i := queues[i].contents];
    }

    /** Pop `k` from queue `i`, after what arrives there before it. */
    method PopFrom(i: nat, feed: Feed, k: nat) returns (item: Option<Message>)
      requires Valid() && i < |queues|
      modifies this, footprint
      ensures Valid()
      ensures |contents| == |old(contents)| && contents == old(contents)[i := contents[i]]
      ensures item.None? ==> contents[i] == []
      ensures Coming(item, contents[i], feed, k + 1, size - 1) == Stream(old(contents[i]), feed, k, size - 1)
    {
      hide LockFreeSpscQueue.Valid, Stream, Coming;
      item := PopNext(queues[i], feed, k);
      contents := contents[i := queues[i].contents];
    }
  }
}
