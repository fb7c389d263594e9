/** The linked list of held messages of one key. */
module OrderingList {
  import opened MachineWords
  import opened Messages
  import opened SpscQueue
  import opened OrderingFilter

  class MessageNode {
    const message: Message
    var next: MessageNode?

    constructor (message: Message)
      ensures this.message == message && next == null
    {
      this.message, next := message, null;
    }
  }

  ghost function Skip(chain: seq<MessageNode>, at: nat): seq<MessageNode>
    requires at < |chain|
  {
    chain[..at] + chain[at + 1..]
  }

  /** Where the nodes and the messages are once one is left out. */
  lemma SkipAt(chain: seq<MessageNode>, messages: seq<Message>, at: nat)
    requires at < |chain| == |messages|
    ensures forall i :: 0 <= i < |chain| - 1 ==> Skip(chain, at)[i] == chain[if i < at then i else i + 1]
    ensures forall i :: 0 <= i < |chain| - 1 ==> Without(messages, at)[i] == messages[if i < at then i else i + 1]
  {
  }

  /** Makes a node for each message, each pointing to the next. */
  method Chain(ms: seq<Message>) returns (head: MessageNode?, ghost chain: seq<MessageNode>)
    ensures |chain| == |ms| && forall n :: n in chain ==> fresh(n)
    ensures forall i :: 0 <= i < |chain| ==> chain[i].message == ms[i]
    ensures chain == [] <==> head == null
    ensures chain != [] ==> head == chain[0] && chain[|chain| - 1].next == null
    ensures forall i {:trigger chain[i].next} :: 0 <= i < |chain| - 1 ==> chain[i].next == chain[i + 1]
  {
    if ms == [] {
      return null, [];
    }
    var tail, rest := Chain(ms[1..]);
    head := new MessageNode(ms[0]);
    head.next := tail;
    chain := [head] + rest;
  }

  /** The owning pointer to the first node of one key's list. */
  class MessageList {
    var first: MessageNode?

    /** The nodes, in order, among the nodes this list may touch. */
    ghost var chain: seq<MessageNode>
    ghost const nodes: set<MessageNode>

    /** The messages, in order. */
    ghost var messages: seq<Message>

    ghost predicate Valid()
      reads this, nodes
    {
      && |messages| == |chain|
      && (forall i :: 0 <= i < |chain| ==> messages[i] == chain[i].message)
      && (forall i :: 0 <= i < |chain| ==> chain[i] in nodes)
      && (chain == [] <==> first == null)
      && (chain != [] ==> first == chain[0] && chain[|chain| - 1].next == null)
      && forall i {:trigger chain[i].next} :: 0 <= i < |chain| - 1 ==> chain[i].next == chain[i + 1]
    }

    /** A list that holds the given messages. (The source never builds one: it only takes messages out.) */
    constructor (ms: seq<Message>)
      ensures Valid() && messages == ms && fresh(nodes)
    {
      var head, linked := Chain(ms);
      first, chain, nodes, messages := head, linked, (set n | n in linked), ms;
    }

    /** A list that ends has no node twice. */
    lemma {:induction false} NodesDiffer(i: nat, j: nat)
      requires Valid() && i < j < |chain|
      ensures chain[i] != chain[j]
      decreases |chain| - j
    {
      if chain[i] == chain[j] {
        assert chain[i].next == chain[i + 1];
        if j + 1 < |chain| {
          assert chain[j].next == chain[j + 1];
          NodesDiffer(i + 1, j + 1);
        }
      }
    }

    lemma NodeOnlyAt(p: nat)
      requires Valid() && p < |chain|
      ensures forall i :: 0 <= i < |chain| && i != p ==> chain[i] != chain[p]
    {
      forall i | 0 <= i < |chain| && i != p ensures chain[i] != chain[p] {
        if i < p { NodesDiffer(i, p); } else { NodesDiffer(p, i); }
      }
    }

    /** Copies the messages out, in order. */
    method Collect() returns (copied: seq<Message>)
      requires Valid()
      ensures copied == messages
    {
      copied := [];
      var current := first;
      while current != null
        invariant |copied| <= |chain|
        invariant current == if |copied| < |chain| then chain[|copied|] else null
        invariant copied == messages[..|copied|]
        decreases |chain| - |copied|
      {
        copied := copied + [current.message];
        current := current.next;
      }
    }

    /** Walks the list to its first message with number `n`, or to the end. */
    method Find(n: Word) returns (prev: MessageNode?, current: MessageNode?)
      requires Valid()
      ensures var at := IndexOf(messages, n);
              && current == (if at < |chain| then chain[at] else null)
              && prev == (if at == 0 then null else chain[at - 1])
    {
      IndexOfIsFirst(messages, n);
      ghost var i := 0;
      prev, current := null, first;
      while current != null && current.message.sequenceNumber != n
        invariant 0 <= i <= |chain|
        invariant current == if i < |chain| then chain[i] else null
        invariant prev == if i == 0 then null else chain[i - 1]
        invariant forall j :: 0 <= j < i ==> chain[j].message.sequenceNumber != n
        decreases |chain| - i
      {
        prev := current;
        current := current.next;
        i := i + 1;
      }
    }

    /** Takes the node after `prev` (the first one, if there is none) out of the list. */
    method Unlink(prev: MessageNode?, current: MessageNode, ghost at: nat)
      requires Valid() && at < |chain|
      requires current == chain[at] && prev == if at == 0 then null else chain[at - 1]
      modifies this, prev
      ensures Valid() && messages == Without(old(messages), at)
    {
      ghost var before, held := chain, messages;
      if prev != null {
        NodeOnlyAt(at - 1);
        prev.next := current.next;
      } else {
        first := current.next;
      }
      chain, messages := Skip(before, at), Without(held, at);
      SkipAt(before, held, at);
    }

    /** Sends and unlinks the message with number `expected`, if there is one and the output queue has room. */
    method SendExpected(expected: Word, output: LockFreeSpscQueue<Message>) returns (sent: bool)
      requires Valid() && output.Valid()
      modifies this, nodes, output, output.buffer
      ensures Valid() && output.Valid()
      ensures sent <==> old(IndexOf(messages, expected) < |messages| && |output.contents| < output.size - 1)
      ensures sent ==> output.contents == old(output.contents + [messages[IndexOf(messages, expected)]])
      ensures sent ==> messages == old(Without(messages, IndexOf(messages, expected)))
      ensures !sent ==> unchanged(this) && output.contents == old(output.contents)
      ensures first == null <==> messages == []
    {
      hide LockFreeSpscQueue.Valid;
      ghost var at := IndexOf(messages, expected);
      var prev, current := Find(expected);
      if current == null {
        return false;
      }
      sent := output.TryPush(current.message);
      if sent {
        Unlink(prev, current, at);
      }
    }
  }
}
