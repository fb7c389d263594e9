/**
 Popping from a queue while its producer pushes: what a pass of a stage finds until it first finds nothing. What
 arrives before each pop is a parameter.
 */
module Arrivals {
  import opened Wrappers
  import opened Messages
  import opened SpscQueue
  import opened Routing

  /** What is pushed before each of the pops, as far as there is room. */
  type Feed = seq<seq<Message>>

  /** What is pushed before pop `k`; nothing, if the feed does not say. */
  function FeedAt(feed: Feed, k: nat): seq<Message> {
    if k < |feed| then feed[k] else []
  }

  /** What a queue pops, from pop `k` on, until a pop finds nothing. */
  function Stream(queue: seq<Message>, feed: Feed, k: nat, capacity: nat): seq<Message>
    decreases if k < |feed| then |feed| - k else 0, |queue|
  {
    var now := FirstOf(queue + FeedAt(feed, k), capacity);
    if now == [] then [] else [now[0]] + Stream(now[1..], feed, k + 1, capacity)
  }

  /** What is pushed meanwhile and finds room. */
  function Accepted(queue: seq<Message>, feed: Feed, k: nat, capacity: nat): seq<Message>
    decreases if k < |feed| then |feed| - k else 0, |queue|
  {
    var now := FirstOf(queue + FeedAt(feed, k), capacity);
    if now == [] then []
    else now[if |queue| < |now| then |queue| else |now|..] + Accepted(now[1..], feed, k + 1, capacity)
  }

  /** First in, first out, also across pops and pushes: what was there, and then what came. */
  lemma {:induction false} StreamInOrder(queue: seq<Message>, feed: Feed, k: nat, capacity: nat)
    requires |queue| <= capacity
    ensures Stream(queue, feed, k, capacity) == queue + Accepted(queue, feed, k, capacity)
    decreases if k < |feed| then |feed| - k else 0, |queue|
  {
    var now := FirstOf(queue + FeedAt(feed, k), capacity);
    if now != [] {
      StreamInOrder(now[1..], feed, k + 1, capacity);
      Regroup(queue, now, Accepted(now[1..], feed, k + 1, capacity));
    }
  }

  lemma Regroup(queue: seq<Message>, now: seq<Message>, rest: seq<Message>)
    requires queue <= now && now != []
    ensures [now[0]] + (now[1..] + rest) == queue + (now[|queue|..] + rest)
  {
    assert [now[0]] + (now[1..] + rest) == now + rest;
    assert queue + (now[|queue|..] + rest) == now + rest;
  }

  /** While nobody pushes, it is what was there. */
  lemma {:induction false} StreamWhileStill(queue: seq<Message>, feed: Feed, k: nat, capacity: nat)
    requires |queue| <= capacity && k >= |feed|
    ensures Stream(queue, feed, k, capacity) == queue
    decreases |queue|
  {
    assert queue + [] == queue;
    if queue != [] {
      StreamWhileStill(queue[1..], feed, k + 1, capacity);
    }
  }

  /** What is pushed before a pop is found there, as far as there is room, and then what the later pops find. */
  lemma StreamFinds(queue: seq<Message>, feed: Feed, k: nat, capacity: nat)
    requires k < |feed| && queue + feed[k] != [] && |queue| <= capacity && capacity > 0
    ensures var now := FirstOf(queue + feed[k], capacity);
            && (|queue| + |feed[k]| <= capacity ==> now == queue + feed[k])
            && Stream(queue, feed, k, capacity) == [now[0]] + Stream(now[1..], feed, k + 1, capacity)
  {
  }

  /** The feed from pop `k` on. */
  function Offered(feed: Feed, k: nat): seq<Message>
    decreases if k < |feed| then |feed| - k else 0
  {
    if k < |feed| then feed[k] + Offered(feed, k + 1) else []
  }

  /** What came is some of what was pushed, in order. */
  lemma {:induction false} AcceptedInOrder(queue: seq<Message>, feed: Feed, k: nat, capacity: nat)
    requires |queue| <= capacity
    ensures IsPartOf(Accepted(queue, feed, k, capacity), Offered(feed, k))
    decreases if k < |feed| then |feed| - k else 0, |queue|
  {
    var now := FirstOf(queue + FeedAt(feed, k), capacity);
    NothingIsPart(Offered(feed, k));
    if now != [] {
      AcceptedInOrder(now[1..], feed, k + 1, capacity);
      var came := Came(queue, FeedAt(feed, k), capacity);
      hide FirstOf, IsPartOf;
      if k < |feed| {
        StartIsPart(feed[k], |came|);
        PartsOfBoth(came, feed[k], Accepted(now[1..], feed, k + 1, capacity), Offered(feed, k + 1));
      } else {
        assert [] + Accepted(now[1..], feed, k + 1, capacity) == Accepted(now[1..], feed, k + 1, capacity);
      }
    }
  }

  /** What finds room is the beginning of what was pushed. */
  lemma Came(queue: seq<Message>, arriving: seq<Message>, capacity: nat) returns (came: seq<Message>)
    requires |queue| <= capacity
    ensures |came| <= |arriving| && came == arriving[..|came|]
    ensures FirstOf(queue + arriving, capacity) == queue + came
  {
    came := FirstOf(queue + arriving, capacity)[|queue|..];
  }

  lemma {:induction false} NothingIsPart(ms: seq<Message>)
    ensures IsPartOf([], ms)
  {
    if ms != [] {
      NothingIsPart(ms[..|ms| - 1]);
    }
  }

  lemma {:induction false} StartIsPart(ms: seq<Message>, n: nat)
    requires n <= |ms|
    ensures IsPartOf(ms[..n], ms)
  {
    if n < |ms| {
      StartIsPart(ms[..|ms| - 1], n);
      assert ms[..|ms| - 1][..n] == ms[..n];
    } else {
      assert ms[..n] == ms;
    }
  }

  lemma {:induction false} PartsOfBoth(a: seq<Message>, x: seq<Message>, b: seq<Message>, y: seq<Message>)
    requires IsPartOf(a, x) && IsPartOf(b, y)
    ensures IsPartOf(a + b, x + y)
    decreases |y|
  {
    if y == [] {
      assert a + b == a && x + y == x;
    } else {
      var shorter, m := y[..|y| - 1], y[|y| - 1];
      assert x + y == x + shorter + [m];
      if IsPartOf(b, shorter) {
        PartsOfBoth(a, x, b, shorter);
        PartOfMore(a + b, x + shorter, m);
      } else {
        WholeOrLast(b, y);
        PartsOfBoth(a, x, b[..|b| - 1], shorter);
        PartOfMore(a + b[..|b| - 1], x + shorter, m);
        assert a + b == a + b[..|b| - 1] + [m];
      }
    }
  }

  lemma WholeOrLast(b: seq<Message>, y: seq<Message>)
    requires IsPartOf(b, y) && y != [] && !IsPartOf(b, y[..|y| - 1])
    ensures b != [] && b[|b| - 1] == y[|y| - 1] && IsPartOf(b[..|b| - 1], y[..|y| - 1])
  {
  }

  /** Several inputs, each with its own feed. */
  function Streams(queues: seq<seq<Message>>, feeds: seq<Feed>, capacity: nat): (r: seq<seq<Message>>)
    ensures |r| == |queues|
  {
    seq(|queues|, i requires 0 <= i < |queues| => Stream(queues[i], if i < |feeds| then feeds[i] else [], 0, capacity))
  }

  /** The message taken, if there is one, and what the pops from pop `k` on find after it. */
  function Coming(message: Option<Message>, queue: seq<Message>, feed: Feed, k: nat, capacity: nat): seq<Message> {
    if message.None? then [] else [message.value] + Stream(queue, feed, k, capacity)
  }

  /** Once the message taken is dealt with. */
  lemma ComingNext(all: seq<Message>, n: nat, m: Message, queue: seq<Message>, feed: Feed, k: nat, capacity: nat)
    requires n <= |all| && all[n..] == Coming(Some(m), queue, feed, k, capacity)
    ensures n < |all| && all[n] == m && all[..n + 1] == all[..n] + [m]
    ensures all[n + 1..] == Stream(queue, feed, k, capacity)
  {
    assert all[n] == all[n..][0] && all[n + 1..] == all[n..][1..];
  }

  /** Pop `k`, after what arrives before it. */
  method PopNext(queue: LockFreeSpscQueue<Message>, feed: Feed, k: nat) returns (item: Option<Message>)
    requires queue.Valid()
    modifies queue, queue.buffer
    ensures queue.Valid()
    ensures var now := FirstOf(old(queue.contents) + FeedAt(feed, k), queue.size - 1);
            && item == (if now == [] then None else Some(now[0]))
            && queue.contents == if now == [] then [] else now[1..]
    ensures Coming(item, queue.contents, feed, k + 1, queue.size - 1) ==
            Stream(old(queue.contents), feed, k, queue.size - 1)
  {
    queue.Bounded();
    hide LockFreeSpscQueue.Valid;
    ghost var before := queue.contents;
    var arriving := FeedAt(feed, k);
    for i := 0 to |arriving|
      invariant queue.Valid()
      invariant queue.contents == Offer(before, arriving, i, queue.size - 1)
    {
      queue.Bounded();
      OfferNext(before, arriving, i, queue.size - 1);
      var _ := queue.TryPush(arriving[i]);
    }
    OfferedFirstCome(before, arriving, |arriving|, queue.size - 1);
    assert arriving[..|arriving|] == arriving;
    item := queue.TryPop();
  }
}
