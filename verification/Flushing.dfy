/** What the ordering buffer's `flush_all` offers to the output queue, apart from the heap. */
module Flushing {
  import opened Messages
  import opened Routing

  /** The keys flushed so far, and what was offered for each. */
  datatype Flush = Nothing | Then(earlier: Flush, key: Key, sorted: seq<Message>) {

    function Offered(): seq<Message> {
      if Nothing? then [] else earlier.Offered() + sorted
    }

    /** The output queue afterwards. */
    function Into(queue: seq<Message>, capacity: nat): seq<Message> {
      if Nothing? then queue else Offer(earlier.Into(queue, capacity), sorted, |sorted|, capacity)
    }

    function Keys(): multiset<Key> {
      if Nothing? then multiset{} else earlier.Keys() + multiset{key}
    }

    /** All keys of `held` but those to come, one by one, each with its messages sorted. */
    ghost predicate IsOf(held: map<Key, seq<Message>>, toCome: set<Key>) {
      if Nothing? then toCome == held.Keys
      else key in held && key !in toCome && sorted == ByNumber(held[key]) && earlier.IsOf(held, toCome + {key})
    }

    /** One more key is flushed. */
    lemma AndThen(held: map<Key, seq<Message>>, toCome: set<Key>, next: Key, chunk: seq<Message>,
                  queue: seq<Message>, capacity: nat) returns (more: Flush)
      requires IsOf(held, toCome) && next in toCome && next in held && chunk == ByNumber(held[next])
      ensures more.IsOf(held, toCome - {next}) && |more.Offered()| == |Offered()| + |chunk|
      ensures more.Into(queue, capacity) == Offer(Into(queue, capacity), chunk, |chunk|, capacity)
    {
      more := Then(this, next, chunk);
      assert toCome - {next} + {next} == toCome;
    }

    lemma {:induction false} IntoFirstCome(queue: seq<Message>, capacity: nat)
      requires |queue| <= capacity
      ensures Into(queue, capacity) == FirstOf(queue + Offered(), capacity)
    {
      if Nothing? {
        assert queue + Offered() == queue;
      } else {
        earlier.IntoFirstCome(queue, capacity);
        OfferedFirstCome(earlier.Into(queue, capacity), sorted, |sorted|, capacity);
        assert sorted[..|sorted|] == sorted;
        CutAppend(queue, earlier.Offered(), sorted, capacity);
      }
    }

    lemma {:induction false} EachKeyOnce(held: map<Key, seq<Message>>, toCome: set<Key>)
      requires IsOf(held, toCome)
      ensures toCome <= held.Keys && Keys() == multiset(held.Keys - toCome)
    {
      if Nothing? {
        assert held.Keys - toCome == {};
      } else {
        earlier.EachKeyOnce(held, toCome + {key});
        assert held.Keys - toCome == held.Keys - (toCome + {key}) + {key};
      }
    }
  }

  /** `std::sort` by number. */
  function ByNumber(ms: seq<Message>): seq<Message> {
    if ms == [] then [] else Insert(ByNumber(ms[..|ms| - 1]), ms[|ms| - 1])
  }

  function Insert(sorted: seq<Message>, m: Message): seq<Message> {
    var n := |sorted| - 1;
    if n < 0 || sorted[n].sequenceNumber <= m.sequenceNumber then sorted + [m]
    else Insert(sorted[..n], m) + [sorted[n]]
  }

  ghost predicate InOrder(ms: seq<Message>) {
    forall i, j :: 0 <= i < j < |ms| ==> ms[i].sequenceNumber <= ms[j].sequenceNumber
  }

  lemma {:induction false} InsertedSame(sorted: seq<Message>, m: Message)
    ensures multiset(Insert(sorted, m)) == multiset(sorted) + multiset{m}
    decreases |sorted|
  {
    var n := |sorted| - 1;
    if n >= 0 && sorted[n].sequenceNumber > m.sequenceNumber {
      InsertedSame(sorted[..n], m);
      assert sorted == sorted[..n] + [sorted[n]];
    }
  }

  lemma {:induction false} InsertedInOrder(sorted: seq<Message>, m: Message)
    requires InOrder(sorted)
    ensures InOrder(Insert(sorted, m))
    decreases |sorted|
  {
    var n := |sorted| - 1;
    if n >= 0 && sorted[n].sequenceNumber > m.sequenceNumber {
      var shorter := Insert(sorted[..n], m);
      InsertedInOrder(sorted[..n], m);
      InsertedSame(sorted[..n], m);
      forall x | x in shorter ensures x.sequenceNumber <= sorted[n].sequenceNumber {
        assert x in multiset(shorter);
        assert x in sorted[..n] || x == m;
      }
      InOrderMore(shorter, sorted[n]);
    } else {
      InOrderMore(sorted, m);
    }
  }

  lemma InOrderMore(ms: seq<Message>, m: Message)
    requires InOrder(ms) && forall x :: x in ms ==> x.sequenceNumber <= m.sequenceNumber
    ensures InOrder(ms + [m])
  {
  }

  /** The same messages, by their numbers. */
  lemma {:induction false} SortedByNumber(ms: seq<Message>)
    ensures InOrder(ByNumber(ms)) && multiset(ByNumber(ms)) == multiset(ms)
    decreases |ms|
  {
    if ms != [] {
      SortedByNumber(ms[..|ms| - 1]);
      InsertedSame(ByNumber(ms[..|ms| - 1]), ms[|ms| - 1]);
      InsertedInOrder(ByNumber(ms[..|ms| - 1]), ms[|ms| - 1]);
      assert ms == ms[..|ms| - 1] + [ms[|ms| - 1]];
    }
  }
}
