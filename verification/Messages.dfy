/** Messages, and what "the same producer and type" means for a stream of them. */
module Messages {
  import opened MachineWords

  datatype Message = Message(
    msgType: nat, producerId: nat, sequenceNumber: Word, timestamp: int,
    processorId: nat, processingTimestamp: int)

  datatype Key = Key(producerId: nat, msgType: nat)

  /** A message as its producer makes it: the processor's fields are zero. */
  function Fresh(msgType: nat, producerId: nat, sequenceNumber: Word, timestamp: int): Message {
    Message(msgType, producerId, sequenceNumber, timestamp, 0, 0)
  }

  /** The part of a message that its producer determined. */
  function Unstamped(m: Message): Message {
    m.(processorId := 0, processingTimestamp := 0)
  }

  /** A message with the stamp of the processor it went through. */
  function Stamped(m: Message, processor: nat, now: int): Message {
    m.(processorId := processor, processingTimestamp := now)
  }

  function KeyOf(m: Message): Key {
    Key(m.producerId, m.msgType)
  }

  /** The messages of one key, in order, without their processor's stamp. */
  function OfKey(ms: seq<Message>, k: Key): seq<Message> {
    if ms == [] then []
    else (if KeyOf(ms[0]) == k then [Unstamped(ms[0])] else []) + OfKey(ms[1..], k)
  }

  lemma OfKeyFirst(ms: seq<Message>, k: Key)
    ensures OfKey(ms, k) ==
            if ms == [] then [] else (if KeyOf(ms[0]) == k then [Unstamped(ms[0])] else []) + OfKey(ms[1..], k)
  {
  }

  lemma {:induction false} OfKeyConcat(a: seq<Message>, b: seq<Message>, k: Key)
    ensures OfKey(a + b, k) == OfKey(a, k) + OfKey(b, k)
  {
    OfKeyFirst(a, k);
    OfKeyFirst(a + b, k);
    hide OfKey, KeyOf, Unstamped;
    if a == [] {
      assert a + b == b;
    } else {
      OfKeyConcat(a[1..], b, k);
      assert (a + b)[1..] == a[1..] + b;
    }
  }

  ghost predicate Ascending(ms: seq<Message>) {
    forall i, j :: 0 <= i < j < |ms| ==> ms[i].sequenceNumber < ms[j].sequenceNumber
  }
}
