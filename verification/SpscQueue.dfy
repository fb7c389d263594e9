/**
 The ring queue as the class its two endpoint threads share, for calls that do not overlap.
 Each call is a run of the concurrent machine in which the other side stands still.
 */
module SpscQueue {
  import opened MachineWords
  import opened Wrappers
  import opened SpscMachine

  class LockFreeSpscQueue<T> {
    const size: nat
    const buffer: array<Slot<T>>
    var head: nat
    var tail: nat

    /** What was pushed and not yet popped, oldest first. */
    ghost var contents: seq<T>

    /** The machine state this object is in. */
    ghost var ring: Ring<T>

    ghost predicate Valid()
      reads this, buffer
    {
      && Inv(size, ring) && size <= TWO_TO_THE_64
      && ring.pusher.PushIdle? && ring.popper.PopIdle?
      && buffer.Length == size && buffer[..] == ring.slots
      && head == ring.head && tail == ring.tail
      && contents == ring.pushed[|ring.popped|..]
    }

    /** There is room for at least one element, and never more than the room is used. */
    lemma Bounded()
      requires Valid()
      ensures size > 1 && |contents| < size
    {
    }

    /** `std::make_unique<Node[]>(Size)` value-initialises the slots: `blank` data, flag down. */
    constructor (size: nat, blank: T)
      requires ValidSize(size) && size <= TWO_TO_THE_64
      ensures Valid() && fresh(buffer) && this.size == size && contents == []
    {
      this.size := size;
      buffer := new Slot<T>[size](_ => Slot(blank, false));
      head, tail := 0, 0;
      ring, contents := Initial(size, blank), [];
      new;
      InitialInv(size, blank);
      assert buffer[..] == ring.slots;
    }

    method TryPush(item: T) returns (pushed: bool)
      requires Valid()
      modifies this, buffer
      ensures Valid()
      ensures pushed <==> |old(contents)| < size - 1
      ensures contents == if pushed then old(contents) + [item] else old(contents)
    {
      ghost var steps, after := PushAlone(size, ring, item, |ring.popped|);
      FullTestExact(size, Apply(size, ring, BeginPush(item)), |ring.popped|) by {
        StepInv(size, ring, BeginPush(item));
      }
      MaskIsMod(|ring.popped|, size);

      var currentTail := tail;
      var nextTail := Mask(currentTail + 1, size);
      if nextTail == head {
        ring := after;
        return false;
      }
      buffer[currentTail] := buffer[currentTail].(data := item);
      buffer[currentTail] := buffer[currentTail].(ready := true);
      tail := nextTail;
      ring, contents := after, contents + [item];
      return true;
    }

    method TryPop() returns (item: Option<T>)
      requires Valid()
      modifies this, buffer
      ensures Valid()
      ensures item == if old(contents) == [] then None else Some(old(contents)[0])
      ensures contents == if item.None? then old(contents) else old(contents)[1..]
    {
      ghost var steps, after := PopAlone(size, ring, |ring.pushed|);
      EmptyTestExact(size, Apply(size, ring, BeginPop), |ring.pushed|) by {
        StepInv(size, ring, BeginPop);
      }
      MaskIsMod(|ring.pushed|, size);
      assert SlotCorrect(size, ring, |ring.popped|);

      var currentHead := head;
      if currentHead == tail {
        ring := after;
        return None;
      }
      if !buffer[currentHead].ready {
        return None;
      }
      item := Some(buffer[currentHead].data);
      buffer[currentHead] := buffer[currentHead].(ready := false);
      head := Mask(currentHead + 1, size);
      ring, contents := after, contents[1..];
    }

    /** Called by nobody else's push or pop in between: the number of elements, in spite of the wrap-around. */
    method Size() returns (n: nat)
      requires Valid()
      ensures n == |contents|
    {
      var currentTail := tail;
      var currentHead := head;
      n := Mask(Difference(currentTail, currentHead), size);
      DistanceMasked(|ring.popped|, |ring.pushed|, size);
    }

    method Empty() returns (empty: bool)
      requires Valid()
      ensures empty <==> contents == []
    {
      SameSlot(|ring.popped|, |ring.pushed|, size);
      empty := head == tail;
    }
  }

  lemma {:induction false} Power2Sum(k: nat, m: nat)
    ensures Power2(k + m) == Power2(k) * Power2(m)
  {
    if m > 0 {
      Power2Sum(k, m - 1);
    }
  }

  lemma {:induction false} Power2Grows(k: nat, m: nat)
    requires k < m
    ensures 0 < Power2(k) < Power2(m)
  {
    if k > 0 {
      Power2Grows(k - 1, m - 1);
    } else if m > 1 {
      Power2Grows(k, m - 1);
    }
  }

  lemma WordIsPower2()
    ensures Power2(64) == TWO_TO_THE_64
  {
    assert Power2(4) == 16;
    Power2Sum(4, 4);
    Power2Sum(8, 8);
    Power2Sum(16, 16);
    Power2Sum(32, 32);
  }

  /** A ring size divides the number of 64-bit values. */
  lemma SizeDividesWords(size: nat) returns (laps: nat)
    requires ValidSize(size) && size <= TWO_TO_THE_64
    ensures laps > 0 && laps * size == TWO_TO_THE_64
  {
    WordIsPower2();
    var k: nat :| size == Power2(k);
    if k > 64 {
      Power2Grows(64, k);
    }
    laps := Power2(64 - k);
    Power2Sum(64 - k, k);
  }

  /** Reducing two positions less than a lap apart keeps their distance, or loses one lap of it. */
  lemma ReducedDistance(h: nat, t: nat, size: nat)
    requires size > 0 && h <= t < h + size
    ensures t % size - h % size == if h % size <= t % size then t - h else t - h - size
  {
    var a, b := h / size, t / size;
    assert h == a * size + h % size && t == b * size + t % size;
    assert (b - a - 1) * size == b * size - a * size - size;
    assert (a - b) * size == a * size - b * size;
    if b > a + 1 {
      ProductAtLeast(b - a - 1, size);
    } else if b < a {
      ProductAtLeast(a - b, size);
    }
  }

  /** The masked 64-bit difference of two reduced positions less than a lap apart is their distance. */
  lemma DistanceMasked(h: nat, t: nat, size: nat)
    requires ValidSize(size) && size <= TWO_TO_THE_64 && h <= t < h + size
    ensures h % size < TWO_TO_THE_64 && t % size < TWO_TO_THE_64
    ensures Mask(Difference(t % size, h % size), size) == t - h
  {
    var d := Difference(t % size, h % size);
    MaskIsMod(d, size);
    ReducedDistance(h, t, size);
    var laps := SizeDividesWords(size);
    if h % size <= t % size {
      RemainderIs(d, size, 0, t - h);
    } else {
      assert (laps - 1) * size == laps * size - size;
      RemainderIs(d, size, laps - 1, t - h);
    }
  }
}
