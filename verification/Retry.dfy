/**
 Pushing with a bounded number of tries, yielding after each failure. What the queue's consumer takes meanwhile is a
 parameter.
 */
module Retry {
  import opened Messages
  import opened SpscQueue

  /** How many messages are taken during each yield, for each of the caller's messages. */
  type Schedule = seq<seq<nat>>

  /** What is taken during the yield after try `i` for message number `n`; nothing, if the schedule does not say. */
  function TakenAt(taken: Schedule, n: nat, i: nat): nat {
    if n < |taken| && i < |taken[n]| then taken[n][i] else 0
  }

  /** A queue of which the consumer takes `k` messages, or all there are. */
  function Left(queue: seq<Message>, k: nat): seq<Message> {
    if k <= |queue| then queue[k..] else []
  }

  /** The first yield, from `i` on and before `end`, during which something is taken; `end` if there is none. */
  function FirstTaken(taken: Schedule, n: nat, i: nat, end: nat): (r: nat)
    requires i <= end
    ensures i <= r <= end
    ensures r < end ==> TakenAt(taken, n, r) > 0
    decreases end - i
  {
    if i == end || TakenAt(taken, n, i) > 0 then i else FirstTaken(taken, n, i + 1, end)
  }

  lemma {:induction false} NoneTakenBefore(taken: Schedule, n: nat, i: nat, end: nat, j: nat)
    requires i <= end && i <= j < FirstTaken(taken, n, i, end)
    ensures TakenAt(taken, n, j) == 0
    decreases end - i
  {
    if i < j {
      NoneTakenBefore(taken, n, i + 1, end, j);
    }
  }

  /**
   The queue after up to `tries` tries to push a message, and whether one of them succeeded: with room at first, or
   once something was taken.
   */
  function Attempt(queue: seq<Message>, m: Message, capacity: nat, tries: nat, taken: Schedule, n: nat)
    : (seq<Message>, bool)
    requires tries > 0
  {
    if |queue| < capacity then (queue + [m], true)
    else
      var i := FirstTaken(taken, n, 0, tries - 1);
      var left := Left(queue, TakenAt(taken, n, i));
      if i < tries - 1 then (left + [m], true) else (left, false)
  }

  lemma GivenUpWhen(queue: seq<Message>, m: Message, capacity: nat, tries: nat, taken: Schedule, n: nat)
    requires tries > 0
    ensures !Attempt(queue, m, capacity, tries, taken, n).1 <==>
            |queue| >= capacity && forall j :: 0 <= j < tries - 1 ==> TakenAt(taken, n, j) == 0
  {
    var i := FirstTaken(taken, n, 0, tries - 1);
    forall j | 0 <= j < i ensures TakenAt(taken, n, j) == 0 {
      NoneTakenBefore(taken, n, 0, tries - 1, j);
    }
  }

  /**
   A message is given up exactly if the queue is full and nothing is taken during any yield but the one after the
   last try.
   */
  lemma GivenUpIff(queue: seq<Message>, m: Message, capacity: nat, tries: nat, taken: Schedule, n: nat)
    requires tries > 0
    ensures !Attempt(queue, m, capacity, tries, taken, n).1 <==>
            && |queue| >= capacity
            && (n < |taken| ==> forall j :: 0 <= j < tries - 1 && j < |taken[n]| ==> taken[n][j] == 0)
  {
    GivenUpWhen(queue, m, capacity, tries, taken, n);
    if n < |taken| && forall j :: 0 <= j < tries - 1 ==> TakenAt(taken, n, j) == 0 {
      forall j | 0 <= j < tries - 1 && j < |taken[n]| ensures taken[n][j] == 0 {
        assert TakenAt(taken, n, j) == 0;
      }
    }
  }

  /** The queue only loses messages at its front, and gains this one at its end if a try succeeds. */
  lemma AttemptKeepsOrder(queue: seq<Message>, m: Message, capacity: nat, tries: nat, taken: Schedule, n: nat)
    returns (gone: nat)
    requires tries > 0
    ensures gone <= |queue|
    ensures Attempt(queue, m, capacity, tries, taken, n).0 ==
            queue[gone..] + (if Attempt(queue, m, capacity, tries, taken, n).1 then [m] else [])
  {
    var k := TakenAt(taken, n, FirstTaken(taken, n, 0, tries - 1));
    gone := if |queue| < capacity then 0 else if k <= |queue| then k else |queue|;
  }

  /** If nothing is taken in the meantime, it is the first try that counts. */
  lemma AttemptWhileStill(queue: seq<Message>, m: Message, capacity: nat, tries: nat, n: nat)
    requires tries > 0
    ensures Attempt(queue, m, capacity, tries, [], n) ==
            if |queue| < capacity then (queue + [m], true) else (queue, false)
  {
    var i := FirstTaken([], n, 0, tries - 1);
    assert TakenAt([], n, i) == 0;
  }

  /** The consumer takes `k` messages, or all there are. */
  method TakeUpTo(queue: LockFreeSpscQueue<Message>, k: nat)
    requires queue.Valid()
    modifies queue, queue.buffer
    ensures queue.Valid() && queue.contents == Left(old(queue.contents), k)
  {
    for i := 0 to k
      invariant queue.Valid() && queue.contents == Left(old(queue.contents), i)
    {
      var _ := queue.TryPop();
    }
  }

  /** The first `i` tries, one after the other. */
  function Tried(queue: seq<Message>, m: Message, capacity: nat, taken: Schedule, n: nat, i: nat)
    : (seq<Message>, bool)
  {
    if i == 0 then (queue, false)
    else
      var (q, sent) := Tried(queue, m, capacity, taken, n, i - 1);
      if sent then (q, true)
      else if |q| < capacity then (q + [m], true)
      else (Left(q, TakenAt(taken, n, i - 1)), false)
  }

  lemma TriedNone(queue: seq<Message>, m: Message, capacity: nat, taken: Schedule, n: nat)
    ensures Tried(queue, m, capacity, taken, n, 0) == (queue, false)
  {
  }

  lemma TriedNext(queue: seq<Message>, m: Message, capacity: nat, taken: Schedule, n: nat, i: nat)
    requires !Tried(queue, m, capacity, taken, n, i).1
    ensures var q := Tried(queue, m, capacity, taken, n, i).0;
            Tried(queue, m, capacity, taken, n, i + 1) ==
            if |q| < capacity then (q + [m], true) else (Left(q, TakenAt(taken, n, i)), false)
  {
  }

  /** Nothing happens after a try has succeeded. */
  lemma {:induction false} TriedEnough(queue: seq<Message>, m: Message, capacity: nat, taken: Schedule, n: nat,
                                       i: nat, j: nat)
    requires i <= j && Tried(queue, m, capacity, taken, n, i).1
    ensures Tried(queue, m, capacity, taken, n, j) == Tried(queue, m, capacity, taken, n, i)
  {
    if i < j {
      TriedEnough(queue, m, capacity, taken, n, i, j - 1);
    }
  }

  /** As long as nothing is taken from a full queue, no try succeeds. */
  lemma {:induction false} TriedInVain(queue: seq<Message>, m: Message, capacity: nat, taken: Schedule, n: nat, i: nat)
    requires |queue| >= capacity && forall j :: 0 <= j < i ==> TakenAt(taken, n, j) == 0
    ensures Tried(queue, m, capacity, taken, n, i) == (queue, false)
  {
    if i > 0 {
      TriedInVain(queue, m, capacity, taken, n, i - 1);
    }
  }

  /** What the tries come to. */
  lemma TriesAreAttempt(queue: seq<Message>, m: Message, capacity: nat, tries: nat, taken: Schedule, n: nat)
    requires 0 < capacity && |queue| <= capacity && tries > 0
    ensures Tried(queue, m, capacity, taken, n, tries) == Attempt(queue, m, capacity, tries, taken, n)
  {
    if |queue| < capacity {
      TriedEnough(queue, m, capacity, taken, n, 1, tries);
    } else {
      var i := FirstTaken(taken, n, 0, tries - 1);
      forall j | 0 <= j < i ensures TakenAt(taken, n, j) == 0 {
        NoneTakenBefore(taken, n, 0, tries - 1, j);
      }
      TriedInVain(queue, m, capacity, taken, n, i);
      if i < tries - 1 {
        assert Tried(queue, m, capacity, taken, n, i + 1) == (Left(queue, TakenAt(taken, n, i)), false);
        TriedEnough(queue, m, capacity, taken, n, i + 2, tries);
      }
    }
  }

  method PushOrYield(queue: LockFreeSpscQueue<Message>, m: Message, k: nat) returns (sent: bool)
    requires queue.Valid()
    modifies queue, queue.buffer
    ensures queue.Valid()
    ensures sent <==> |old(queue.contents)| < queue.size - 1
    ensures queue.contents == if sent then old(queue.contents) + [m] else Left(old(queue.contents), k)
  {
    sent := queue.TryPush(m);
    if !sent {
      TakeUpTo(queue, k);
    }
  }

  /** Tries to push a message, and yields after each failure. */
  method PushWithin(queue: LockFreeSpscQueue<Message>, m: Message, tries: nat, taken: Schedule, n: nat)
    returns (sent: bool)
    requires queue.Valid() && tries > 0
    modifies queue, queue.buffer
    ensures queue.Valid()
    ensures Attempt(old(queue.contents), m, queue.size - 1, tries, taken, n) == (queue.contents, sent)
  {
    queue.Bounded();
    hide LockFreeSpscQueue.Valid, Tried, Attempt;
    ghost var before, capacity := queue.contents, queue.size - 1;
    TriedNone(before, m, capacity, taken, n);
    sent := false;
    var retry := 0;
    while retry < tries && !sent
      invariant queue.Valid() && retry <= tries
      invariant Tried(before, m, capacity, taken, n, retry) == (queue.contents, sent)
    {
      TriedNext(before, m, capacity, taken, n, retry);
      sent := PushOrYield(queue, m, TakenAt(taken, n, retry));
      retry := retry + 1;
    }
    if sent {
      TriedEnough(before, m, capacity, taken, n, retry, tries);
    }
    TriesAreAttempt(before, m, capacity, tries, taken, n);
  }
}
