/**
 The ordering buffer's object: per-key linked lists of held messages, the numbers expected, and the
 counters; a message is sent by pushing it to the output queue.
 */
module OrderingBuffer {
  import opened MachineWords
  import opened Messages
  import opened SpscQueue
  import opened OrderingFilter
  import opened OrderingList
  import opened Flushing
  import opened Routing

  class OrderingBuffer {
    var buffers: map<Key, MessageList>
    var expectedSequence: map<Key, Word>

    /** The two atomic counters, as integers: the machine's 64-bit values are these modulo 2^64. */
    var messagesBuffered: int
    var messagesSent: int

    /** Every list and node this buffer may touch. */
    ghost var lists: set<MessageList>
    ghost var nodes: set<MessageNode>

    /** A key's list, if it has one, as a set; and the nodes of that list. */
    ghost function ListOf(key: Key): set<MessageList>
      reads `buffers
    {
      if key in buffers then {buffers[key]} else {}
    }

    ghost function NodesOf(key: Key): set<MessageNode>
      reads `buffers
    {
      if key in buffers then buffers[key].nodes else {}
    }

    /** Every list is well formed, and no two lists share the owning pointer or a node. */
    ghost predicate Valid()
      reads `buffers, `lists, `nodes, lists, nodes
    {
      && (forall k :: k in buffers ==> buffers[k] in lists && buffers[k].nodes <= nodes && buffers[k].Valid())
      && (forall k, l :: k in buffers && l in buffers && k != l ==>
            buffers[k] != buffers[l] && buffers[k].nodes !! buffers[l].nodes)
    }

    /** The state a history of `AddMessage` calls since construction leads to. */
    ghost predicate After(history: seq<Message>)
      reads `buffers, `expectedSequence, `messagesBuffered, `messagesSent
    {
      && buffers == map[] && messagesBuffered == 0
      && expectedSequence == ExpectedBy(history)
      && messagesSent == |Attempts(history)|
    }

    constructor ()
      ensures Valid() && After([])
    {
      buffers, expectedSequence, messagesBuffered, messagesSent := map[], map[], 0, 0;
      lists, nodes := {}, {};
    }

    /** A buffer that holds messages of one key and expects `expected` of it. (The source never holds any.) */
    constructor Holding(key: Key, expected: Word, ms: seq<Message>)
      ensures Valid() && buffers.Keys == {key} && Held(key) == ms
      ensures expectedSequence == map[key := expected] && messagesBuffered == |ms| && messagesSent == 0
      ensures fresh(ListOf(key)) && fresh(NodesOf(key))
    {
      var list := new MessageList(ms);
      buffers, expectedSequence := map[key := list], map[key := expected];
      messagesBuffered, messagesSent := |ms|, 0;
      lists, nodes := {list}, list.nodes;
    }

    ghost function Held(key: Key): seq<Message>
      reads `buffers, ListOf(key)
    {
      if key in buffers then buffers[key].messages else []
    }

    /** What a drain of this list sends and leaves, with the output queue as it is. */
    ghost function DrainOf(key: Key, list: MessageList, output: LockFreeSpscQueue<Message>)
      : (seq<Message>, seq<Message>)
      reads `expectedSequence, list, output, output.buffer
      requires output.Valid() && key in expectedSequence
    {
      Drain(list.messages, expectedSequence[key], output.size - 1 - |output.contents|)
    }

    /** Sends the message of the list that is expected, and counts it, if it is there and the queue has room. */
    method SendNext(key: Key, list: MessageList, output: LockFreeSpscQueue<Message>) returns (sent: bool)
      requires list.Valid() && output.Valid() && key in expectedSequence
      modifies this`expectedSequence, this`messagesBuffered, this`messagesSent
      modifies list, list.nodes, output, output.buffer
      ensures list.Valid() && output.Valid() && (list.first == null <==> list.messages == [])
      ensures var (expected, messages) := old((expectedSequence[key], list.messages));
              var at := IndexOf(messages, expected);
              && (sent <==> at < |messages| && |old(output.contents)| < output.size - 1)
              && (sent ==> output.contents == old(output.contents) + [messages[at]])
              && (sent ==> list.messages == Without(messages, at))
              && (sent ==> expectedSequence == old(expectedSequence)[key := Successor(expected)])
      ensures sent ==> messagesSent == old(messagesSent) + 1 && messagesBuffered == old(messagesBuffered) - 1
      ensures !sent ==> unchanged(this) && unchanged(list) && output.contents == old(output.contents)
    {
      hide *;
      var expected := expectedSequence[key];
      sent := list.SendExpected(expected, output);
      if sent {
        messagesSent := messagesSent + 1;
        messagesBuffered := messagesBuffered - 1;
        expectedSequence := expectedSequence[key := Successor(expected)];
      }
    }

    /**
     Sends the messages of one list that continue the key's sequence, one after the other, as long as the
     output queue has room. (The recursive part of `try_send_next`, below its two lookups.)
     */
    method DrainList(key: Key, list: MessageList, output: LockFreeSpscQueue<Message>)
      returns (any: bool, ghost sent: seq<Message>)
      requires list.Valid() && output.Valid() && key in expectedSequence
      modifies this`expectedSequence, this`messagesBuffered, this`messagesSent
      modifies list, list.nodes, output, output.buffer
      ensures list.Valid() && output.Valid()
      ensures old(DrainOf(key, list, output)) == (sent, list.messages)
      ensures any <==> sent != []
      ensures output.contents == old(output.contents) + sent
      ensures messagesSent == old(messagesSent) + |sent|
      ensures messagesBuffered == old(messagesBuffered) - |sent|
      ensures expectedSequence == ExpectedAfter(old(expectedSequence), key, sent)
      ensures !any ==> unchanged(this)
      decreases |list.messages|
    {
      output.Bounded();
      ghost var expected, messages, contents := expectedSequence[key], list.messages, output.contents;
      ghost var room := output.size - 1 - |contents|;
      assert DrainOf(key, list, output) == Drain(messages, expected, room);
      hide *;
      any := SendNext(key, list, output);
      if any {
        ghost var more := [];
        if list.first != null {
          var _, m := DrainList(key, list, output);
          more := m;
        } else {
          DrainNothing([], Successor(expected), room - 1);
        }
        sent := DrainStep(messages, expected, room, more, list.messages, contents);
      } else {
        DrainNothing(messages, expected, room);
        sent := [];
      }
    }

    /** What of a key's list goes out if `expected` is expected and there is so much room, and what stays. */
    ghost function Continuing(key: Key, expected: Word, room: nat): (seq<Message>, seq<Message>)
      reads `buffers, ListOf(key)
    {
      if key in buffers then Drain(buffers[key].messages, expected, room) else ([], [])
    }

    /** What `TrySendNext` sends and leaves for a key, with the output queue as it is. */
    ghost function Sendable(key: Key, output: LockFreeSpscQueue<Message>): (seq<Message>, seq<Message>)
      reads `buffers, `expectedSequence, ListOf(key), output, output.buffer
      requires output.Valid()
    {
      if key in expectedSequence then Continuing(key, expectedSequence[key], output.size - 1 - |output.contents|)
      else ([], Held(key))
    }

    /** A held run goes out whole and in order, and its list is forgotten. */
    method ReleaseRun(key: Key, output: LockFreeSpscQueue<Message>) returns (ghost sent: seq<Message>)
      requires Valid() && output.Valid() && |output.contents| + |Held(key)| < output.size
      requires Held(key) != [] && key in expectedSequence && IsRun(Held(key), expectedSequence[key])
      modifies this`buffers, this`expectedSequence, this`messagesBuffered, this`messagesSent
      modifies ListOf(key), NodesOf(key), output, output.buffer
      ensures Valid() && output.Valid() && buffers == old(buffers) - {key}
      ensures messagesBuffered == old(messagesBuffered) - |old(Held(key))|
      ensures messagesSent == old(messagesSent) + |old(Held(key))|
      ensures output.contents == old(output.contents) + sent
      ensures RunOf(sent, old(Held(key)), old(expectedSequence[key]))
    {
      output.Bounded();
      DrainsAll(Held(key), expectedSequence[key], output.size - 1 - |output.contents|);
      ghost var (run, rest) := Sendable(key, output);
      assert rest == [] && RunOf(run, Held(key), expectedSequence[key]) && |run| == |Held(key)|;
      hide *;
      var any;
      any, sent := TrySendNext(key, output);
    }

    /** What handing in an expected message sends after it, if it goes out itself, and what stays of its key's list. */
    ghost function ReleasedBy(m: Message, output: LockFreeSpscQueue<Message>): (seq<Message>, seq<Message>)
      reads `buffers, ListOf(KeyOf(m)), output, output.buffer
      requires output.Valid()
    {
      if |output.contents| < output.size - 1
      then Continuing(KeyOf(m), Successor(m.sequenceNumber), output.size - 2 - |output.contents|)
      else ([], Held(KeyOf(m)))
    }

    /** Drains the held messages of a key that continue its sequence; a list left empty is forgotten. */
    method TrySendNext(key: Key, output: LockFreeSpscQueue<Message>) returns (any: bool, ghost sent: seq<Message>)
      requires Valid() && output.Valid()
      modifies this`buffers, this`expectedSequence, this`messagesBuffered, this`messagesSent
      modifies ListOf(key), NodesOf(key), output, output.buffer
      ensures Valid() && output.Valid()
      ensures old(Sendable(key, output)) == (sent, Held(key))
      ensures buffers == if any && Held(key) == [] then old(buffers) - {key} else old(buffers)
      ensures any <==> sent != []
      ensures output.contents == old(output.contents) + sent
      ensures messagesSent == old(messagesSent) + |sent|
      ensures messagesBuffered == old(messagesBuffered) - |sent|
      ensures expectedSequence == ExpectedAfter(old(expectedSequence), key, sent)
      ensures !any ==> unchanged(this)
    {
      if key !in buffers || buffers[key].first == null {
        return false, [];
      }
      if key !in expectedSequence {
        return false, [];
      }
      var list := buffers[key];
      any, sent := DrainList(key, list, output);
      OthersUntouched(key);
      if any && list.first == null {
        Forget(key);
      }
    }

    /** Lists are apart: a change that stays within one key's list leaves the others as they were. */
    twostate lemma OthersUntouched(key: Key)
      requires old(Valid()) && key in buffers && buffers[key].Valid()
      requires unchanged(this`buffers) && unchanged(this`lists) && unchanged(this`nodes)
      requires forall k :: k in buffers && k != key ==> unchanged(buffers[k]) && unchanged(buffers[k].nodes)
      ensures Valid()
    {
    }

    method Forget(key: Key)
      requires Valid() && key in buffers && buffers[key].messages == []
      modifies this`buffers
      ensures Valid() && buffers == old(buffers) - {key}
    {
      buffers := buffers - {key};
    }

    /** Counts a message as sent, expects the number after it, and offers it to the output queue once. */
    method Forward(m: Message, output: LockFreeSpscQueue<Message>) returns (ok: bool)
      requires Valid() && output.Valid()
      modifies this`expectedSequence, this`messagesSent, output, output.buffer
      ensures Valid() && output.Valid()
      ensures expectedSequence == ExpectedAfter(old(expectedSequence), KeyOf(m), [m])
      ensures messagesSent == old(messagesSent) + 1
      ensures ok <==> |old(output.contents)| < output.size - 1
      ensures output.contents == old(output.contents) + (if ok then [m] else [])
      ensures old(ReleasedBy(m, output)) == if ok then Sendable(KeyOf(m), output) else ([], Held(KeyOf(m)))
    {
      hide LockFreeSpscQueue.Valid, Valid, Drain;
      expectedSequence := expectedSequence[KeyOf(m) := Successor(m.sequenceNumber)];
      messagesSent := messagesSent + 1;
      ok := output.TryPush(m);
    }

    /** The expected message: sent and, if it was taken, followed by the held messages that continue it. */
    method ForwardExpected(m: Message, output: LockFreeSpscQueue<Message>) returns (ok: bool, ghost more: seq<Message>)
      requires Valid() && output.Valid()
      modifies this`buffers, this`expectedSequence, this`messagesBuffered, this`messagesSent
      modifies ListOf(KeyOf(m)), NodesOf(KeyOf(m)), output, output.buffer
      ensures Valid() && output.Valid()
      ensures ok <==> |old(output.contents)| < output.size - 1
      ensures ok ==> output.contents == old(output.contents) + [m] + more
      ensures !ok ==> output.contents == old(output.contents) && more == []
      ensures (more, Held(KeyOf(m))) == old(ReleasedBy(m, output))
      ensures buffers == if more != [] && Held(KeyOf(m)) == [] then old(buffers) - {KeyOf(m)} else old(buffers)
      ensures messagesSent == old(messagesSent) + 1 + |more|
      ensures messagesBuffered == old(messagesBuffered) - |more|
      ensures expectedSequence == ExpectedAfter(old(expectedSequence), KeyOf(m), [m] + more)
    {
      hide LockFreeSpscQueue.Valid, Valid, Sendable, ReleasedBy;
      more := [];
      ok := Forward(m, output);
      if ok {
        var any;
        any, more := TrySendNext(KeyOf(m), output);
        ExpectedAfterMore(old(expectedSequence), KeyOf(m), [m], more);
      }
    }

    /** What a handed-in message leads to being pushed, with the output queue as it is, and the list it leaves. */
    ghost function Effect(m: Message, output: LockFreeSpscQueue<Message>): (seq<Message>, seq<Message>)
      reads `buffers, `expectedSequence, ListOf(KeyOf(m)), output, output.buffer
      requires output.Valid()
    {
      var key := KeyOf(m);
      if !IsAttempt(expectedSequence, m) || |output.contents| >= output.size - 1 then ([], Held(key))
      else if key in expectedSequence && m.sequenceNumber == expectedSequence[key]
      then ([m] + ReleasedBy(m, output).0, ReleasedBy(m, output).1)
      else ([m], Held(key))
    }

    /**
     Hands in a message: sent on (as far as the output queue has room) unless a later one of its key was handed
     in before; a message that is the expected one also releases the held ones that follow it.
     */
    method AddMessage(m: Message, output: LockFreeSpscQueue<Message>) returns (ok: bool, ghost sent: seq<Message>)
      requires Valid() && output.Valid()
      modifies this`buffers, this`expectedSequence, this`messagesBuffered, this`messagesSent
      modifies ListOf(KeyOf(m)), NodesOf(KeyOf(m)), output, output.buffer
      ensures Valid() && output.Valid()
      ensures (sent, Held(KeyOf(m))) == old(Effect(m, output))
      ensures output.contents == old(output.contents) + sent
      ensures ok <==> !IsAttempt(old(expectedSequence), m) || |old(output.contents)| < output.size - 1
      ensures buffers == if |sent| > 1 && Held(KeyOf(m)) == [] then old(buffers) - {KeyOf(m)} else old(buffers)
      ensures messagesSent == old(messagesSent) + (if ok then |sent| else 1)
      ensures messagesBuffered == old(messagesBuffered) - (if sent == [] then 0 else |sent| - 1)
      ensures expectedSequence == ExpectedAfter(Expect(old(expectedSequence), m), KeyOf(m), sent)
    {
      hide LockFreeSpscQueue.Valid, Valid;
      var key := KeyOf(m);
      sent := [];
      ok := true;
      if key !in expectedSequence {
        ok := Forward(m, output);
        sent := if ok then [m] else [];
        ExpectThenSend(old(expectedSequence), m, sent);
      } else if m.sequenceNumber == expectedSequence[key] {
        ghost var more;
        ok, more := ForwardExpected(m, output);
        sent := if ok then [m] + more else [];
        assert ok ==> old(output.contents) + sent == old(output.contents) + [m] + more;
        ExpectThenSend(old(expectedSequence), m, sent);
      } else if m.sequenceNumber > expectedSequence[key] {
        ok := Forward(m, output);
        sent := if ok then [m] else [];
        ExpectThenSend(old(expectedSequence), m, sent);
      }
    }

    /** The expected message goes out at once, and after it the whole run that was held behind it, in order. */
    method AddBeforeRun(m: Message, output: LockFreeSpscQueue<Message>) returns (ok: bool, ghost more: seq<Message>)
      requires Valid() && output.Valid() && KeyOf(m) in expectedSequence
      requires m.sequenceNumber == expectedSequence[KeyOf(m)] && m.sequenceNumber + 1 < TWO_TO_THE_64
      requires IsRun(Held(KeyOf(m)), m.sequenceNumber + 1)
      requires |output.contents| + 1 + |Held(KeyOf(m))| < output.size
      modifies this`buffers, this`expectedSequence, this`messagesBuffered, this`messagesSent
      modifies ListOf(KeyOf(m)), NodesOf(KeyOf(m)), output, output.buffer
      ensures Valid() && output.Valid() && ok
      ensures output.contents == old(output.contents) + [m] + more
      ensures RunOf(more, old(Held(KeyOf(m))), m.sequenceNumber + 1) && Held(KeyOf(m)) == []
      ensures messagesSent == old(messagesSent) + 1 + |more| && messagesBuffered == old(messagesBuffered) - |more|
    {
      hide *;
      output.Bounded();
      more := EffectBeforeRun(m, output);
      ghost var sent;
      ok, sent := AddMessage(m, output);
    }

    lemma EffectBeforeRun(m: Message, output: LockFreeSpscQueue<Message>) returns (more: seq<Message>)
      requires output.Valid() && KeyOf(m) in expectedSequence
      requires m.sequenceNumber == expectedSequence[KeyOf(m)] && m.sequenceNumber + 1 < TWO_TO_THE_64
      requires IsRun(Held(KeyOf(m)), m.sequenceNumber + 1)
      requires |output.contents| + 1 + |Held(KeyOf(m))| < output.size
      ensures IsAttempt(expectedSequence, m) && Effect(m, output) == ([m] + more, [])
      ensures RunOf(more, Held(KeyOf(m)), m.sequenceNumber + 1)
    {
      output.Bounded();
      more := Continuing(KeyOf(m), Successor(m.sequenceNumber), output.size - 2 - |output.contents|).0;
      hide LockFreeSpscQueue.Valid, Drain, IsRun, RunOf;
      DrainsAll(Held(KeyOf(m)), m.sequenceNumber + 1, output.size - 2 - |output.contents|);
    }

    /**
     The same call after a history of such calls: nothing is ever held, the counter counts the attempts, and
     what reaches the output queue is the message itself, if it is an attempt and there is room.
     */
    method AddMessageAfter(m: Message, output: LockFreeSpscQueue<Message>, ghost history: seq<Message>)
      returns (ok: bool)
      requires Valid() && output.Valid() && After(history)
      modifies this`buffers, this`expectedSequence, this`messagesBuffered, this`messagesSent
      modifies output, output.buffer
      ensures Valid() && output.Valid() && After(history + [m])
      ensures ok <==> Attempts(history + [m]) == Attempts(history) || |old(output.contents)| < output.size - 1
      ensures output.contents == old(output.contents) +
                (if |old(output.contents)| < output.size - 1
                 then Attempts(history + [m])[|Attempts(history)|..]
                 else [])
    {
      assert (history + [m])[..|history|] == history;
      ghost var sent;
      ok, sent := AddMessage(m, output);
    }

    /** The messages held, for every key with a list. */
    ghost predicate Holds(held: map<Key, seq<Message>>)
      reads `buffers, buffers.Values
    {
      held.Keys == buffers.Keys && forall k :: k in buffers ==> held[k] == buffers[k].messages
    }

    /** Counts a message as sent, whether the output queue takes it or not. */
    method PushOne(m: Message, output: LockFreeSpscQueue<Message>)
      requires output.Valid()
      modifies this`messagesSent, output, output.buffer
      ensures output.Valid() && messagesSent == old(messagesSent) + 1
      ensures output.contents == old(output.contents) + (if |old(output.contents)| < output.size - 1 then [m] else [])
    {
      var _ := output.TryPush(m);
      messagesSent := messagesSent + 1;
    }

    /** Offers messages one by one. */
    method PushAll(ms: seq<Message>, output: LockFreeSpscQueue<Message>)
      requires output.Valid()
      modifies this`messagesSent, output, output.buffer
      ensures output.Valid()
      ensures output.contents == Offer(old(output.contents), ms, |ms|, output.size - 1)
      ensures messagesSent == old(messagesSent) + |ms|
    {
      for i := 0 to |ms|
        invariant output.Valid()
        invariant output.contents == Offer(old(output.contents), ms, i, output.size - 1)
        invariant messagesSent == old(messagesSent) + i
      {
        Routing.OfferNext(old(output.contents), ms, i, output.size - 1);
        PushOne(ms[i], output);
      }
    }

    /** Offers one key's held messages, in the order of their numbers. */
    method OfferKey(key: Key, output: LockFreeSpscQueue<Message>, ghost held: map<Key, seq<Message>>)
      requires Valid() && Holds(held) && output.Valid() && key in held
      modifies this`messagesSent, output, output.buffer
      ensures Valid() && Holds(held) && output.Valid()
      ensures output.contents ==
              Offer(old(output.contents), ByNumber(held[key]), |ByNumber(held[key])|, output.size - 1)
      ensures messagesSent == old(messagesSent) + |ByNumber(held[key])|
    {
      output.Bounded();
      hide LockFreeSpscQueue.Valid;
      var messages := buffers[key].Collect();
      PushAll(ByNumber(messages), output);
    }

    /** The same, for the record of what was offered before. */
    method OfferNext(key: Key, output: LockFreeSpscQueue<Message>, ghost held: map<Key, seq<Message>>,
                     ghost before: seq<Message>, ghost done: Flush, ghost keys: set<Key>) returns (ghost more: Flush)
      requires Valid() && Holds(held) && output.Valid()
      requires key in keys && key in held && done.IsOf(held, keys)
      requires output.contents == done.Into(before, output.size - 1)
      modifies this`messagesSent, output, output.buffer
      ensures Valid() && Holds(held) && output.Valid()
      ensures more.IsOf(held, keys - {key}) && output.contents == more.Into(before, output.size - 1)
      ensures messagesSent - |more.Offered()| == old(messagesSent) - |done.Offered()|
    {
      output.Bounded();
      hide LockFreeSpscQueue.Valid;
      OfferKey(key, output, held);
      more := done.AndThen(held, keys, key, ByNumber(held[key]), before, output.size - 1);
    }

    /** Offers all held messages, key by key in some order. */
    method OfferAll(output: LockFreeSpscQueue<Message>, ghost held: map<Key, seq<Message>>) returns (ghost flush: Flush)
      requires Valid() && Holds(held) && output.Valid()
      modifies this`messagesSent, output, output.buffer
      ensures Valid() && output.Valid()
      ensures flush.IsOf(held, {}) && output.contents == flush.Into(old(output.contents), output.size - 1)
      ensures messagesSent == old(messagesSent) + |flush.Offered()|
    {
      flush := Nothing;
      var keys := buffers.Keys;
      while keys != {}
        invariant Valid() && output.Valid() && Holds(held)
        invariant keys <= buffers.Keys && flush.IsOf(held, keys)
        invariant output.contents == flush.Into(old(output.contents), output.size - 1)
        invariant messagesSent - |flush.Offered()| == old(messagesSent)
        decreases keys
      {
        var key :| key in keys;
        flush := OfferNext(key, output, held, old(output.contents), flush, keys);
        keys := keys - {key};
      }
    }

    method Clear()
      modifies this`buffers, this`messagesBuffered
      ensures Valid() && buffers == map[] && messagesBuffered == 0
    {
      buffers, messagesBuffered := map[], 0;
    }

    /**
     Offers all held messages to the output queue, key by key in some order and each key's in the order of their
     numbers, and forgets them, taken or not.
     */
    method FlushAll(output: LockFreeSpscQueue<Message>, ghost held: map<Key, seq<Message>>) returns (ghost flush: Flush)
      requires Valid() && Holds(held) && output.Valid()
      modifies this`buffers, this`messagesBuffered, this`messagesSent, output, output.buffer
      ensures Valid() && output.Valid()
      ensures buffers == map[] && messagesBuffered == 0
      ensures flush.IsOf(held, {})
      ensures output.contents == FirstOf(old(output.contents) + flush.Offered(), output.size - 1)
      ensures messagesSent == old(messagesSent) + |flush.Offered()|
    {
      output.Bounded();
      hide LockFreeSpscQueue.Valid;
      flush := OfferAll(output, held);
      flush.IntoFirstCome(old(output.contents), output.size - 1);
      Clear();
    }

    /** After any history of `AddMessage` calls there is nothing to flush. */
    method FlushAllAfter(output: LockFreeSpscQueue<Message>, ghost history: seq<Message>)
      requires Valid() && output.Valid() && After(history)
      modifies this`buffers, this`messagesBuffered, this`messagesSent, output, output.buffer
      ensures Valid() && output.Valid() && After(history) && output.contents == old(output.contents)
    {
      ghost var flush := FlushAll(output, map[]);
      flush.EachKeyOnce(map[], {});
      assert flush == Nothing;
      assert old(output.contents) + flush.Offered() == old(output.contents);
    }
  }

  /** A buffer that holds a run in any order: one drain sends it in order and leaves the buffer empty. */
  method HoldAndRelease(key: Key, expected: Word, ms: seq<Message>, output: LockFreeSpscQueue<Message>)
    returns (buffer: OrderingBuffer, ghost sent: seq<Message>)
    requires output.Valid() && |output.contents| + |ms| < output.size
    requires ms != [] && IsRun(ms, expected)
    modifies output, output.buffer
    ensures buffer.Valid() && output.Valid()
    ensures buffer.buffers == map[] && buffer.messagesBuffered == 0 && buffer.messagesSent == |ms|
    ensures output.contents == old(output.contents) + sent && RunOf(sent, ms, expected)
  {
    output.Bounded();
    hide *;
    buffer := new OrderingBuffer.Holding(key, expected, ms);
    sent := buffer.ReleaseRun(key, output);
  }
}
