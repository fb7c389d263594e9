/**
 What the ordering buffer computes, apart from the heap: which messages a history of
 `add_message` calls attempts to send, and which messages `try_send_next` drains from a list.
 */
module OrderingFilter {
  import opened MachineWords
  import opened Messages

  // ----- Histories of add_message -----

  /** The filter sends a message on unless a later one of its key went before. */
  predicate IsAttempt(expected: map<Key, Word>, m: Message) {
    KeyOf(m) !in expected || m.sequenceNumber >= expected[KeyOf(m)]
  }

  function Expect(expected: map<Key, Word>, m: Message): map<Key, Word> {
    if IsAttempt(expected, m) then expected[KeyOf(m) := Successor(m.sequenceNumber)] else expected
  }

  function ExpectedBy(history: seq<Message>): map<Key, Word> {
    if history == [] then map[]
    else Expect(ExpectedBy(history[..|history| - 1]), history[|history| - 1])
  }

  function Attempts(history: seq<Message>): seq<Message> {
    if history == [] then []
    else
      var before, m := history[..|history| - 1], history[|history| - 1];
      Attempts(before) + (if IsAttempt(ExpectedBy(before), m) then [m] else [])
  }

  /** Message `i` has a larger number than every earlier message of its key. */
  ghost predicate IsRecord(history: seq<Message>, i: nat)
    requires i < |history|
  {
    forall j :: 0 <= j < i && KeyOf(history[j]) == KeyOf(history[i]) ==>
      history[j].sequenceNumber < history[i].sequenceNumber
  }

  /** The strict left-to-right maxima of every key among the first `n` messages, in order of arrival. */
  ghost function Records(history: seq<Message>, n: nat): seq<Message>
    requires n <= |history|
  {
    if n == 0 then []
    else Records(history, n - 1) + (if IsRecord(history, n - 1) then [history[n - 1]] else [])
  }

  /** No number is the largest one, whose successor wraps around. */
  ghost predicate NoOverflow(history: seq<Message>) {
    forall m :: m in history ==> m.sequenceNumber + 1 < TWO_TO_THE_64
  }

  ghost predicate AscendingPerKey(history: seq<Message>) {
    forall i :: 0 <= i < |history| ==> IsRecord(history, i)
  }

  /** What is expected of a key is one past the largest number seen for it. */
  lemma {:induction false} ExpectedIsLargestPlusOne(history: seq<Message>, k: Key)
    requires NoOverflow(history)
    ensures var expected := ExpectedBy(history);
            && (k in expected <==> exists m :: m in history && KeyOf(m) == k)
            && (k in expected ==>
                && (forall m :: m in history && KeyOf(m) == k ==> m.sequenceNumber < expected[k])
                && (exists m :: m in history && KeyOf(m) == k && m.sequenceNumber + 1 == expected[k]))
    decreases |history|
  {
    if history != [] {
      var before, m := history[..|history| - 1], history[|history| - 1];
      assert history == before + [m];
      ExpectedIsLargestPlusOne(before, k);
      assert forall n :: n in history <==> n in before || n == m;
      if KeyOf(m) == k {
        assert m in history;
      }
      if k in ExpectedBy(before) {
        var n :| n in before && KeyOf(n) == k && n.sequenceNumber + 1 == ExpectedBy(before)[k];
        assert n in history;
      }
    }
  }

  /** Whatever arrives in whatever order: the attempted sends are exactly the strict maxima of each key. */
  lemma {:induction false} AttemptsAreRecords(history: seq<Message>)
    requires NoOverflow(history)
    ensures Attempts(history) == Records(history, |history|)
    decreases |history|
  {
    if history != [] {
      var last := |history| - 1;
      var before, m := history[..last], history[last];
      AttemptsAreRecords(before);
      RecordsOfPrefix(history, before, last);
      ExpectedIsLargestPlusOne(before, KeyOf(m));
      assert IsAttempt(ExpectedBy(before), m) <==> IsRecord(history, last) by {
        assert forall j :: 0 <= j < last ==> history[j] == before[j] && history[j] in before;
        if KeyOf(m) in ExpectedBy(before) && m.sequenceNumber < ExpectedBy(before)[KeyOf(m)] {
          var n :| n in before && KeyOf(n) == KeyOf(m) && n.sequenceNumber + 1 == ExpectedBy(before)[KeyOf(m)];
          var j :| 0 <= j < last && before[j] == n;
          assert history[j] == n;
        }
      }
    }
  }

  lemma {:induction false} RecordsOfPrefix(history: seq<Message>, before: seq<Message>, n: nat)
    requires n <= |before| && before <= history
    ensures Records(history, n) == Records(before, n)
  {
    if n > 0 {
      RecordsOfPrefix(history, before, n - 1);
      assert forall j :: 0 <= j < n ==> history[j] == before[j];
    }
  }

  /** A message that was handed in once is never sent by handing it in again, even if its push was refused. */
  lemma NeverRetried(history: seq<Message>, m: Message)
    requires NoOverflow(history) && m in history
    ensures !IsAttempt(ExpectedBy(history), m)
  {
    ExpectedIsLargestPlusOne(history, KeyOf(m));
  }

  /** What the filter lets through is strictly ascending for every key. */
  lemma {:induction false} AttemptsAscend(history: seq<Message>)
    requires NoOverflow(history)
    ensures AscendingPerKey(Attempts(history))
    ensures forall m :: m in Attempts(history) ==> m in history
    decreases |history|
  {
    if history != [] {
      var before, m := history[..|history| - 1], history[|history| - 1];
      AttemptsAscend(before);
      ExpectedIsLargestPlusOne(before, KeyOf(m));
      var a, a' := Attempts(before), Attempts(history);
      forall i | 0 <= i < |a'| ensures IsRecord(a', i) {
        if i < |a| {
          assert IsRecord(a, i);
          assert forall j :: 0 <= j <= i ==> a'[j] == a[j];
        } else {
          assert forall j :: 0 <= j < |a| ==> a'[j] == a[j] && a'[j] in a;
        }
      }
    }
  }

  /**
   A stream that is already ascending for every key passes unchanged: behind a first-in-first-out pipeline the filter
   does nothing.
   */
  lemma AscendingPassesUnchanged(history: seq<Message>)
    requires NoOverflow(history) && AscendingPerKey(history)
    ensures Attempts(history) == history
  {
    AttemptsAreRecords(history);
    AllRecords(history, |history|);
  }

  lemma {:induction false} AllRecords(history: seq<Message>, n: nat)
    requires n <= |history| && AscendingPerKey(history)
    ensures Records(history, n) == history[..n]
  {
    if n > 0 {
      AllRecords(history, n - 1);
      assert IsRecord(history, n - 1);
    }
  }

  lemma FilterIsIdempotent(history: seq<Message>)
    requires NoOverflow(history)
    ensures Attempts(Attempts(history)) == Attempts(history)
  {
    AttemptsAscend(history);
    AscendingPassesUnchanged(Attempts(history));
  }

  // ----- Draining a list -----

  /** What is expected once the messages `sent` went out for a key: the number after the last of them. */
  function ExpectedAfter(expected: map<Key, Word>, key: Key, sent: seq<Message>): map<Key, Word> {
    if sent == [] then expected else expected[key := Successor(sent[|sent| - 1].sequenceNumber)]
  }

  lemma ExpectedAfterMore(expected: map<Key, Word>, key: Key, sent: seq<Message>, more: seq<Message>)
    ensures ExpectedAfter(ExpectedAfter(expected, key, sent), key, more) == ExpectedAfter(expected, key, sent + more)
  {
  }

  /** Expecting the number after `m`, and then the one after the last message sent, starting with `m`. */
  lemma ExpectThenSend(expected: map<Key, Word>, m: Message, sent: seq<Message>)
    requires IsAttempt(expected, m) && (sent != [] ==> sent[0] == m)
    ensures ExpectedAfter(Expect(expected, m), KeyOf(m), sent) ==
            ExpectedAfter(expected, KeyOf(m), if sent == [] then [m] else sent)
  {
  }

  /** The first message of the list with number `n`, or the length of the list. */
  function IndexOf(list: seq<Message>, n: Word): (i: nat)
    ensures i <= |list|
  {
    if list == [] then 0
    else if list[0].sequenceNumber == n then 0
    else 1 + IndexOf(list[1..], n)
  }

  lemma {:induction false} IndexOfIsFirst(list: seq<Message>, n: Word)
    ensures forall j :: 0 <= j < IndexOf(list, n) ==> list[j].sequenceNumber != n
    ensures IndexOf(list, n) < |list| ==> list[IndexOf(list, n)].sequenceNumber == n
  {
    if list != [] && list[0].sequenceNumber != n {
      IndexOfIsFirst(list[1..], n);
    }
  }

  function Without(list: seq<Message>, i: nat): seq<Message>
    requires i < |list|
  {
    list[..i] + list[i + 1..]
  }

  /**
   What is sent and what stays when the list is searched for `expected`, then for its successor, and so on while
   there is room.
   */
  function Drain(list: seq<Message>, expected: Word, room: nat): (seq<Message>, seq<Message>)
    decreases |list|
  {
    var i := IndexOf(list, expected);
    if i == |list| || room == 0 then ([], list)
    else
      var (sent, rest) := Drain(Without(list, i), Successor(expected), room - 1);
      ([list[i]] + sent, rest)
  }

  /** Nothing goes out if there is no room or nothing to be found. */
  lemma DrainNothing(list: seq<Message>, expected: Word, room: nat)
    requires room == 0 || IndexOf(list, expected) == |list|
    ensures Drain(list, expected, room) == ([], list)
  {
  }

  lemma DrainFirst(list: seq<Message>, expected: Word, room: nat)
    requires room > 0 && IndexOf(list, expected) < |list|
    ensures var i := IndexOf(list, expected);
            var (sent, rest) := Drain(Without(list, i), Successor(expected), room - 1);
            Drain(list, expected, room) == ([list[i]] + sent, rest)
  {
  }

  /** The drain of a list of which the first message was sent to a queue, and then the rest drained. */
  lemma DrainStep(list: seq<Message>, expected: Word, room: nat, more: seq<Message>, rest: seq<Message>,
                  queue: seq<Message>)
    returns (sent: seq<Message>)
    requires room > 0 && IndexOf(list, expected) < |list|
    requires Drain(Without(list, IndexOf(list, expected)), Successor(expected), room - 1) == (more, rest)
    ensures Drain(list, expected, room) == (sent, rest) && |sent| == 1 + |more|
    ensures queue + [list[IndexOf(list, expected)]] + more == queue + sent
    ensures forall e, key {:trigger ExpectedAfter(e, key, sent)} ::
              ExpectedAfter(e[key := Successor(expected)], key, more) == ExpectedAfter(e, key, sent)
  {
    IndexOfIsFirst(list, expected);
    sent := [list[IndexOf(list, expected)]] + more;
  }

  ghost predicate Holds(list: seq<Message>, n: nat) {
    exists m :: m in list && m.sequenceNumber == n
  }

  lemma WithoutOne(list: seq<Message>, i: nat)
    requires i < |list|
    ensures multiset(list) == multiset{list[i]} + multiset(Without(list, i))
    ensures forall m :: m in list ==> m == list[i] || m in Without(list, i)
  {
    assert list == list[..i] + [list[i]] + list[i + 1..];
  }

  /**
   The drain sends one message for each of `expected`, `expected + 1`, ... as far as the list holds them and
   the room lasts, and keeps all the others.
   */
  lemma {:induction false} DrainIsLongestRun(list: seq<Message>, expected: Word, room: nat)
    requires expected + |list| < TWO_TO_THE_64
    ensures var (sent, rest) := Drain(list, expected, room);
            && |sent| <= room
            && (forall i :: 0 <= i < |sent| ==> sent[i].sequenceNumber == expected + i)
            && (|sent| < room ==> !Holds(list, expected + |sent|))
    decreases |list|
  {
    var i := IndexOf(list, expected);
    IndexOfIsFirst(list, expected);
    if i < |list| && room > 0 {
      var shorter := Without(list, i);
      WithoutOne(list, i);
      DrainIsLongestRun(shorter, Successor(expected), room - 1);
      var (sent, rest) := Drain(shorter, Successor(expected), room - 1);
      forall m | m in list && |sent| + 1 < room ensures m.sequenceNumber != expected + |sent| + 1 {
        assert m == list[i] || m in shorter;
      }
    } else {
      forall m | i == |list| && m in list ensures m.sequenceNumber != expected {
        var j :| 0 <= j < |list| && list[j] == m;
      }
    }
  }

  lemma {:induction false} DrainKeepsTheRest(list: seq<Message>, expected: Word, room: nat)
    ensures var (sent, rest) := Drain(list, expected, room);
            |sent| + |rest| == |list| && multiset(sent) + multiset(rest) == multiset(list)
    decreases |list|
  {
    hide Drain;
    var i := IndexOf(list, expected);
    if i < |list| && room > 0 {
      var shorter := Without(list, i);
      WithoutOne(list, i);
      DrainKeepsTheRest(shorter, Successor(expected), room - 1);
      DrainFirst(list, expected, room);
    } else {
      DrainNothing(list, expected, room);
    }
  }

  /** The list holds just the numbers from `expected` on, in any order. */
  ghost predicate IsRun(list: seq<Message>, expected: Word) {
    && expected + |list| < TWO_TO_THE_64
    && forall n: nat :: expected <= n < expected + |list| ==> Holds(list, n)
  }

  /** The messages of the list, by number. */
  ghost predicate RunOf(sent: seq<Message>, list: seq<Message>, expected: Word) {
    && |sent| == |list| && multiset(sent) == multiset(list)
    && forall i :: 0 <= i < |sent| ==> sent[i].sequenceNumber == expected + i
  }

  /** If all of a run has room, nothing stays. */
  lemma DrainsAll(list: seq<Message>, expected: Word, room: nat)
    requires |list| <= room && IsRun(list, expected)
    ensures var (sent, rest) := Drain(list, expected, room);
            rest == [] && RunOf(sent, list, expected) && |sent| == |list|
  {
    DrainIsLongestRun(list, expected, room);
    DrainKeepsTheRest(list, expected, room);
  }
}
