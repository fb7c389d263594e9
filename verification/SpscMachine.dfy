/**
 The lock-free ring queue as a concurrent machine: one pusher and one popper, every
 load and store of `try_push` and `try_pop` a step of its own, in any interleaving.

 An acquire load of the other side's index may be stale: it returns any value that index
 has had between the last value this side saw and the current one. Positions are counted
 without bound; the shared indices hold them reduced modulo the ring size.
 */
module SpscMachine {
  import opened MachineWords
  import opened Wrappers
  import opened QueueGuards

  datatype Slot<T> = Slot(data: T, ready: bool)

  /** Where the pusher is inside `try_push`; `tail` is its local copy of the tail index. */
  datatype Pusher<T> =
    | PushIdle
    | TailLoaded(item: T, tail: nat)
    | RoomSeen(item: T, tail: nat)
    | DataWritten(item: T, tail: nat)
    | FlagRaised(item: T, tail: nat)

  /** Where the popper is inside `try_pop`; `head` is its local copy of the head index. */
  datatype Popper<T> =
    | PopIdle
    | HeadLoaded(head: nat)
    | TailSeen(head: nat)
    | FlagSeen(head: nat)
    | DataRead(head: nat, item: T)
    | FlagLowered(head: nat, item: T)

  /** What a finished call did, recorded at the step where it takes effect. */
  datatype Outcome<T> =
    | Pushed(item: T)
    | Popped(item: T)
    | RefusedFull
    | FoundEmpty
    | FoundNotReady

  /**
   `pushed` and `popped` log the completed calls; `headView` and `tailView` are the last positions each side saw of
   the other.
   */
  datatype Ring<T> = Ring(
    slots: seq<Slot<T>>, head: nat, tail: nat,
    pushed: seq<T>, popped: seq<T>, headView: nat, tailView: nat,
    pusher: Pusher<T>, popper: Popper<T>, outcomes: seq<Outcome<T>>)

  datatype Step<T> =
    | BeginPush(item: T)
    | LoadHead(seen: nat)
    | WriteData
    | RaiseFlag
    | StoreTail
    | BeginPop
    | LoadTail(seen: nat)
    | LoadFlag
    | ReadData
    | LowerFlag
    | StoreHead

  /** The sizes the queue is meant for: a power of two that leaves room for an element. */
  ghost predicate ValidSize(size: nat) {
    2 <= size && IsPowerOf2(size)
  }

  /** `i & (size - 1)`. */
  function Mask(i: nat, size: nat): nat
    requires size > 0
  {
    BitAnd(i, size - 1)
  }

  lemma MaskIsMod(i: nat, size: nat)
    requires ValidSize(size)
    ensures Mask(i, size) == i % size
  {
    var k: nat :| size == Power2(k);
    MaskIsRemainder(i, k);
  }

  function Initial<T>(size: nat, blank: T): Ring<T> {
    Ring(seq(size, _ => Slot(blank, false)), 0, 0, [], [], 0, 0, PushIdle, PopIdle, [])
  }

  predicate Enabled<T>(size: nat, s: Ring<T>, step: Step<T>) {
    match step
    case BeginPush(_) => s.pusher.PushIdle?
    case LoadHead(seen) => s.pusher.TailLoaded? && s.headView <= seen <= |s.popped|
    case WriteData => s.pusher.RoomSeen? && s.pusher.tail < |s.slots|
    case RaiseFlag => s.pusher.DataWritten? && s.pusher.tail < |s.slots|
    case StoreTail => s.pusher.FlagRaised?
    case BeginPop => s.popper.PopIdle?
    case LoadTail(seen) => s.popper.HeadLoaded? && s.tailView <= seen <= |s.pushed|
    case LoadFlag => s.popper.TailSeen? && s.popper.head < |s.slots|
    case ReadData => s.popper.FlagSeen? && s.popper.head < |s.slots|
    case LowerFlag => s.popper.DataRead? && s.popper.head < |s.slots|
    case StoreHead => s.popper.FlagLowered?
  }

  function Apply<T>(size: nat, s: Ring<T>, step: Step<T>): Ring<T>
    requires size > 0 && Enabled(size, s, step)
  {
    match step
    case BeginPush(item) => s.(pusher := TailLoaded(item, s.tail))
    case LoadHead(seen) =>
      if Mask(s.pusher.tail + 1, size) == Mask(seen, size)
      then s.(headView := seen, pusher := PushIdle, outcomes := s.outcomes + [RefusedFull])
      else s.(headView := seen, pusher := RoomSeen(s.pusher.item, s.pusher.tail))
    case WriteData =>
      var i := s.pusher.tail;
      s.(slots := s.slots[i := s.slots[i].(data := s.pusher.item)], pusher := DataWritten(s.pusher.item, i))
    case RaiseFlag =>
      var i := s.pusher.tail;
      s.(slots := s.slots[i := s.slots[i].(ready := true)], pusher := FlagRaised(s.pusher.item, i))
    case StoreTail =>
      s.(tail := Mask(s.pusher.tail + 1, size), pushed := s.pushed + [s.pusher.item], pusher := PushIdle,
         outcomes := s.outcomes + [Pushed(s.pusher.item)])
    case BeginPop => s.(popper := HeadLoaded(s.head))
    case LoadTail(seen) =>
      if s.popper.head == Mask(seen, size)
      then s.(tailView := seen, popper := PopIdle, outcomes := s.outcomes + [FoundEmpty])
      else s.(tailView := seen, popper := TailSeen(s.popper.head))
    case LoadFlag =>
      if !s.slots[s.popper.head].ready
      then s.(popper := PopIdle, outcomes := s.outcomes + [FoundNotReady])
      else s.(popper := FlagSeen(s.popper.head))
    case ReadData => s.(popper := DataRead(s.popper.head, s.slots[s.popper.head].data))
    case LowerFlag =>
      var i := s.popper.head;
      s.(slots := s.slots[i := s.slots[i].(ready := false)], popper := FlagLowered(i, s.popper.item))
    case StoreHead =>
      s.(head := Mask(s.popper.head + 1, size), popped := s.popped + [s.popper.item], popper := PopIdle,
         outcomes := s.outcomes + [Popped(s.popper.item)])
  }

  /** `to` is reached from `from` by the given steps, each enabled where it is taken. */
  ghost predicate Runs<T>(size: nat, from: Ring<T>, steps: seq<Step<T>>, to: Ring<T>)
    requires size > 0
    decreases |steps|
  {
    if steps == [] then from == to
    else Enabled(size, from, steps[0]) && Runs(size, Apply(size, from, steps[0]), steps[1..], to)
  }

  // ----- The invariant -----

  /** The slot that holds position `j`, for a position in the window of one lap starting at the head. */
  ghost predicate SlotCorrect<T>(size: nat, s: Ring<T>, j: nat)
    requires size > 0 && |s.slots| == size
  {
    var slot := s.slots[j % size];
    && slot.ready == ((j < |s.pushed| && !(j == |s.popped| && s.popper.FlagLowered?)) ||
                      (j == |s.pushed| && s.pusher.FlagRaised?))
    && (j < |s.pushed| ==> slot.data == s.pushed[j])
    && (j == |s.pushed| && (s.pusher.DataWritten? || s.pusher.FlagRaised?) ==> slot.data == s.pusher.item)
  }

  ghost predicate PusherCorrect<T>(size: nat, s: Ring<T>) {
    && (!s.pusher.PushIdle? ==> s.pusher.tail == s.tail)
    && (s.pusher.RoomSeen? || s.pusher.DataWritten? || s.pusher.FlagRaised? ==>
        |s.pushed| + 1 < s.headView + size)
  }

  ghost predicate PopperCorrect<T>(s: Ring<T>) {
    && (!s.popper.PopIdle? ==> s.popper.head == s.head)
    && (!s.popper.PopIdle? && !s.popper.HeadLoaded? ==> |s.popped| < s.tailView)
    && (s.popper.DataRead? || s.popper.FlagLowered? ==>
        |s.popped| < |s.pushed| && s.popper.item == s.pushed[|s.popped|])
  }

  ghost predicate IndicesCorrect<T>(size: nat, s: Ring<T>)
    requires size > 0
  {
    && s.head == |s.popped| % size
    && s.tail == |s.pushed| % size
    && s.headView <= |s.popped| <= s.tailView <= |s.pushed| < s.headView + size
  }

  ghost predicate Inv<T>(size: nat, s: Ring<T>) {
    && ValidSize(size)
    && |s.slots| == size
    && s.popped <= s.pushed
    && IndicesCorrect(size, s)
    && PusherCorrect(size, s)
    && PopperCorrect(s)
    && forall j :: |s.popped| <= j < |s.popped| + size ==> SlotCorrect(size, s, j)
  }

  // ----- Modular indices -----

  /** Two positions less than a lap apart share a slot only if they are equal. */
  lemma SameSlot(j: nat, k: nat, size: nat)
    requires size > 0 && j <= k < j + size
    ensures j % size == k % size <==> j == k
  {
    if j % size == k % size && j != k {
      var laps := k / size - j / size;
      assert laps * size == k - j by {
        assert j == j / size * size + j % size && k == k / size * size + k % size;
      }
      if laps > 0 {
        ProductAtLeast(laps, size);
      }
    }
  }

  lemma NextLap(j: nat, size: nat)
    requires size > 0
    ensures (j + size) % size == j % size
  {
    RemainderIs(j + size, size, j / size + 1, j % size);
  }

  lemma NextIndex(j: nat, size: nat)
    requires size > 0
    ensures (j % size + 1) % size == (j + 1) % size
  {
    var q := j / size;
    assert j == q * size + j % size;
    if j % size + 1 == size {
      RemainderIs(j + 1, size, q + 1, 0);
      RemainderIs(size, size, 1, 0);
    } else {
      RemainderIs(j + 1, size, q, j % size + 1);
      RemainderIs(j % size + 1, size, 0, j % size + 1);
    }
  }

  /**
   Wrap-around never fools the full test: for any admissible value of the head, `next_tail == head`
   says exactly that the ring is full as far as the pusher can see.
   */
  lemma FullTestExact<T>(size: nat, s: Ring<T>, seen: nat)
    requires Inv(size, s) && s.pusher.TailLoaded? && s.headView <= seen <= |s.popped|
    ensures Mask(s.pusher.tail + 1, size) == Mask(seen, size) <==> |s.pushed| - seen == size - 1
  {
    var t := |s.pushed|;
    MaskIsMod(s.tail + 1, size);
    MaskIsMod(seen, size);
    NextIndex(t, size);
    if t + 1 == seen + size {
      NextLap(seen, size);
    } else {
      SameSlot(seen, t + 1, size);
    }
  }

  /** Nor the empty test: `head == tail` says exactly that the ring is empty as far as the popper can see. */
  lemma EmptyTestExact<T>(size: nat, s: Ring<T>, seen: nat)
    requires Inv(size, s) && s.popper.HeadLoaded? && s.tailView <= seen <= |s.pushed|
    ensures s.popper.head == Mask(seen, size) <==> seen == |s.popped|
  {
    MaskIsMod(seen, size);
    SameSlot(|s.popped|, seen, size);
  }

  // ----- Preservation -----

  lemma InitialInv<T>(size: nat, blank: T)
    requires ValidSize(size)
    ensures Inv(size, Initial(size, blank))
  {
    var s := Initial(size, blank);
    forall j | 0 <= j < size ensures SlotCorrect(size, s, j) {
      RemainderIs(j, size, 0, j);
    }
    RemainderIs(0, size, 0, 0);
  }

  /** Rewriting the slot of one position of the window leaves the other positions' slots alone. */
  lemma OtherSlots<T>(size: nat, s: Ring<T>, p: nat, slot: Slot<T>)
    requires size > 0 && |s.slots| == size
    requires |s.popped| <= p < |s.popped| + size
    ensures forall j :: |s.popped| <= j < |s.popped| + size && j != p ==>
              s.slots[p % size := slot][j % size] == s.slots[j % size]
    ensures s.slots[p % size := slot][p % size] == slot
  {
    forall j | |s.popped| <= j < |s.popped| + size && j != p
      ensures j % size != p % size
    {
      if j < p { SameSlot(j, p, size); } else { SameSlot(p, j, size); }
    }
  }

  lemma PusherStepInv<T>(size: nat, s: Ring<T>, step: Step<T>)
    requires Inv(size, s) && Enabled(size, s, step)
    requires step.BeginPush? || step.LoadHead? || step.WriteData? || step.RaiseFlag? || step.StoreTail?
    ensures Inv(size, Apply(size, s, step))
  {
    var s' := Apply(size, s, step);
    var t := |s.pushed|;
    match step
    case BeginPush(_) =>
      assert forall j :: |s.popped| <= j < |s.popped| + size ==> SlotCorrect(size, s, j) ==> SlotCorrect(size, s', j);
    case LoadHead(seen) =>
      FullTestExact(size, s, seen);
      assert forall j :: |s.popped| <= j < |s.popped| + size ==> SlotCorrect(size, s, j) ==> SlotCorrect(size, s', j);
    case WriteData =>
      OtherSlots(size, s, t, s.slots[s.tail].(data := s.pusher.item));
      assert SlotCorrect(size, s, t);
      forall j | |s.popped| <= j < |s.popped| + size ensures SlotCorrect(size, s', j) {
        assert SlotCorrect(size, s, j);
      }
    case RaiseFlag =>
      OtherSlots(size, s, t, s.slots[s.tail].(ready := true));
      assert SlotCorrect(size, s, t);
      forall j | |s.popped| <= j < |s.popped| + size ensures SlotCorrect(size, s', j) {
        assert SlotCorrect(size, s, j);
      }
    case StoreTail =>
      MaskIsMod(s.tail + 1, size);
      NextIndex(t, size);
      forall j | |s.popped| <= j < |s.popped| + size ensures SlotCorrect(size, s', j) {
        assert SlotCorrect(size, s, j);
      }
  }

  lemma PopperStepInv<T>(size: nat, s: Ring<T>, step: Step<T>)
    requires Inv(size, s) && Enabled(size, s, step)
    requires step.BeginPop? || step.LoadTail? || step.LoadFlag? || step.ReadData? || step.LowerFlag? || step.StoreHead?
    ensures Inv(size, Apply(size, s, step))
  {
    var s' := Apply(size, s, step);
    var h := |s.popped|;
    assert SlotCorrect(size, s, h);
    match step
    case BeginPop =>
      assert forall j :: h <= j < h + size ==> SlotCorrect(size, s, j) ==> SlotCorrect(size, s', j);
    case LoadTail(seen) =>
      EmptyTestExact(size, s, seen);
      assert forall j :: h <= j < h + size ==> SlotCorrect(size, s, j) ==> SlotCorrect(size, s', j);
    case LoadFlag =>
      assert forall j :: h <= j < h + size ==> SlotCorrect(size, s, j) ==> SlotCorrect(size, s', j);
    case ReadData =>
      assert forall j :: h <= j < h + size ==> SlotCorrect(size, s, j) ==> SlotCorrect(size, s', j);
    case LowerFlag =>
      OtherSlots(size, s, h, s.slots[s.head].(ready := false));
      forall j | h <= j < h + size ensures SlotCorrect(size, s', j) {
        assert SlotCorrect(size, s, j);
      }
    case StoreHead =>
      MaskIsMod(s.head + 1, size);
      NextIndex(h, size);
      NextLap(h, size);
      forall j | h + 1 <= j < h + 1 + size ensures SlotCorrect(size, s', j) {
        if j < h + size {
          assert SlotCorrect(size, s, j);
        }
      }
  }

  lemma StepInv<T>(size: nat, s: Ring<T>, step: Step<T>)
    requires Inv(size, s) && Enabled(size, s, step)
    ensures Inv(size, Apply(size, s, step))
  {
    if step.BeginPush? || step.LoadHead? || step.WriteData? || step.RaiseFlag? || step.StoreTail? {
      PusherStepInv(size, s, step);
    } else {
      PopperStepInv(size, s, step);
    }
  }

  lemma {:induction false} RunInv<T>(size: nat, from: Ring<T>, steps: seq<Step<T>>, to: Ring<T>)
    requires Inv(size, from) && Runs(size, from, steps, to)
    ensures Inv(size, to)
    decreases |steps|
  {
    if steps != [] {
      StepInv(size, from, steps[0]);
      RunInv(size, Apply(size, from, steps[0]), steps[1..], to);
    }
  }

  /** No run from the empty ring ever leaves the invariant. */
  lemma ReachableInv<T>(size: nat, blank: T, steps: seq<Step<T>>, s: Ring<T>)
    requires ValidSize(size) && Runs(size, Initial(size, blank), steps, s)
    ensures Inv(size, s)
  {
    InitialInv(size, blank);
    RunInv(size, Initial(size, blank), steps, s);
  }

  // ----- First in, first out -----

  /** Whatever the interleaving and however stale the views: what was popped is a prefix of what was pushed. */
  lemma FirstInFirstOut<T>(size: nat, blank: T, steps: seq<Step<T>>, s: Ring<T>)
    requires ValidSize(size) && Runs(size, Initial(size, blank), steps, s)
    ensures s.popped <= s.pushed
    ensures |s.pushed| - |s.popped| <= size - 1
  {
    ReachableInv(size, blank, steps, s);
  }

  /**
   The ready flags are up on exactly the occupied slots, apart from the slot being published and the
   slot being released; so a popper that saw an element finds its flag up.
   */
  lemma ReadyExactlyWhereOccupied<T>(size: nat, blank: T, steps: seq<Step<T>>, s: Ring<T>, i: nat)
    requires ValidSize(size) && Runs(size, Initial(size, blank), steps, s)
    requires i < size
    ensures |s.slots| == size
    ensures s.slots[i].ready <==>
              || (s.pusher.FlagRaised? && i == s.tail)
              || (!(s.popper.FlagLowered? && i == s.head) &&
                  exists j :: |s.popped| <= j < |s.pushed| && j % size == i)
    ensures s.popper.TailSeen? ==> s.popper.head == s.head < size && s.slots[s.head].ready
  {
    ReachableInv(size, blank, steps, s);
    var h := |s.popped|;
    assert SlotCorrect(size, s, h);
    var j := WindowPosition(h, size, i);
    assert SlotCorrect(size, s, j);
    forall k | h <= k < |s.pushed| && k % size == i ensures k == j {
      if k < j { SameSlot(k, j, size); } else { SameSlot(j, k, size); }
    }
    if j == h {
      assert i == s.head;
    } else if i == s.head {
      SameSlot(h, j, size);
    }
    if i == s.tail {
      if j < |s.pushed| { SameSlot(j, |s.pushed|, size); } else { SameSlot(|s.pushed|, j, size); }
    }
  }

  /** Every slot holds exactly one position of the window of one lap that starts at `h`. */
  lemma WindowPosition(h: nat, size: nat, i: nat) returns (j: nat)
    requires i < size
    ensures h <= j < h + size && j % size == i
  {
    var q := h / size;
    assert h == q * size + h % size;
    if h % size <= i {
      j := q * size + i;
      RemainderIs(j, size, q, i);
    } else {
      j := (q + 1) * size + i;
      RemainderIs(j, size, q + 1, i);
    }
  }

  /** A side that stands before a non-atomic access to a slot is never there together with the other side. */
  lemma DataRaceFree<T>(size: nat, blank: T, steps: seq<Step<T>>, s: Ring<T>)
    requires ValidSize(size) && Runs(size, Initial(size, blank), steps, s)
    requires s.pusher.RoomSeen? && s.popper.FlagSeen?
    ensures s.pusher.tail != s.popper.head
  {
    ReachableInv(size, blank, steps, s);
    SameSlot(|s.popped|, |s.pushed|, size);
  }

  /** A call that was begun can always take its next step, whatever the other side does. */
  lemma NeverStuck<T(!new)>(size: nat, blank: T, steps: seq<Step<T>>, s: Ring<T>)
    requires ValidSize(size) && Runs(size, Initial(size, blank), steps, s)
    ensures match s.pusher
            case PushIdle => forall x :: Enabled(size, s, BeginPush(x))
            case TailLoaded(_, _) => Enabled(size, s, LoadHead(|s.popped|))
            case RoomSeen(_, _) => Enabled(size, s, WriteData)
            case DataWritten(_, _) => Enabled(size, s, RaiseFlag)
            case FlagRaised(_, _) => Enabled(size, s, StoreTail)
    ensures match s.popper
            case PopIdle => Enabled(size, s, BeginPop)
            case HeadLoaded(_) => Enabled(size, s, LoadTail(|s.pushed|))
            case TailSeen(_) => Enabled(size, s, LoadFlag)
            case FlagSeen(_) => Enabled(size, s, ReadData)
            case DataRead(_, _) => Enabled(size, s, LowerFlag)
            case FlagLowered(_, _) => Enabled(size, s, StoreHead)
  {
    ReachableInv(size, blank, steps, s);
    if !s.pusher.PushIdle? {
      assert Enabled(size, s, if s.pusher.TailLoaded? then LoadHead(|s.popped|)
                              else if s.pusher.RoomSeen? then WriteData
                              else if s.pusher.DataWritten? then RaiseFlag else StoreTail);
    }
  }

  // ----- Every call takes effect at one step -----

  /** A sequential bounded queue: how many elements were ever put in, and those still inside. */
  datatype Queue<T> = Queue(total: nat, items: seq<T>)

  /**
   The queue after one finished call, if the call's outcome is right for it. A strict queue is
   refused only when full and found empty only when empty. A lax queue may be refused once
   `capacity` elements were ever put in, and may be found empty at any time.
   */
  function Perform<T(==)>(capacity: nat, strict: bool, q: Queue<T>, outcome: Outcome<T>): Option<Queue<T>> {
    match outcome
    case Pushed(x) => if |q.items| < capacity then Some(Queue(q.total + 1, q.items + [x])) else None
    case Popped(x) => if q.items != [] && q.items[0] == x then Some(q.(items := q.items[1..])) else None
    case RefusedFull => if (if strict then |q.items| == capacity else q.total >= capacity) then Some(q) else None
    case FoundEmpty => if !strict || q.items == [] then Some(q) else None
    case FoundNotReady => None
  }

  function Replay<T(==)>(capacity: nat, strict: bool, outcomes: seq<Outcome<T>>): Option<Queue<T>> {
    if outcomes == [] then Some(Queue(0, []))
    else
      var before := Replay(capacity, strict, outcomes[..|outcomes| - 1]);
      if before.None? then None else Perform(capacity, strict, before.value, outcomes[|outcomes| - 1])
  }

  /** What a replay shows, call by call: each is one operation of a bounded first-in-first-out queue. */
  lemma {:induction false} ReplayIsAQueue<T>(capacity: nat, strict: bool, outcomes: seq<Outcome<T>>, i: nat)
    requires Replay(capacity, strict, outcomes).Some? && i < |outcomes|
    ensures var before := Replay(capacity, strict, outcomes[..i]);
            var after := Replay(capacity, strict, outcomes[..i + 1]);
            && before.Some? && after.Some?
            && match outcomes[i]
               case Pushed(x) => |before.value.items| < capacity && after.value.items == before.value.items + [x]
               case Popped(x) => before.value.items == [x] + after.value.items
               case RefusedFull =>
                 after == before && |outcomes[..i]| >= capacity && (strict ==> |before.value.items| == capacity)
               case FoundEmpty => after == before && (strict ==> before.value.items == [])
               case FoundNotReady => false
    decreases |outcomes|
  {
    var last := |outcomes| - 1;
    if i < last {
      ReplayIsAQueue(capacity, strict, outcomes[..last], i);
      assert outcomes[..last][..i] == outcomes[..i] && outcomes[..last][..i + 1] == outcomes[..i + 1];
    } else {
      assert outcomes[..i + 1] == outcomes && outcomes[..i + 1][..i] == outcomes[..i];
      TotalAtMostCalls(capacity, strict, outcomes[..i]);
    }
  }

  lemma {:induction false} TotalAtMostCalls<T>(capacity: nat, strict: bool, outcomes: seq<Outcome<T>>)
    requires Replay(capacity, strict, outcomes).Some?
    ensures var q := Replay(capacity, strict, outcomes).value; |q.items| <= q.total <= |outcomes|
    decreases |outcomes|
  {
    if outcomes != [] {
      TotalAtMostCalls(capacity, strict, outcomes[..|outcomes| - 1]);
    }
  }

  /** A step that loads the other side's index as it is now. */
  predicate UpToDate<T>(s: Ring<T>, step: Step<T>) {
    match step
    case LoadHead(seen) => seen == |s.popped|
    case LoadTail(seen) => seen == |s.pushed|
    case _ => true
  }

  ghost predicate AllUpToDate<T>(size: nat, from: Ring<T>, steps: seq<Step<T>>)
    requires size > 0
    decreases |steps|
  {
    steps != [] ==>
      && UpToDate(from, steps[0])
      && (Enabled(size, from, steps[0]) ==> AllUpToDate(size, Apply(size, from, steps[0]), steps[1..]))
  }

  /** The outcomes recorded so far are those of a sequential queue that now holds what was pushed and not popped. */
  ghost predicate Explained<T>(size: nat, strict: bool, s: Ring<T>) {
    Inv(size, s) &&
    Replay(size - 1, strict, s.outcomes) == Some(Queue(|s.pushed|, s.pushed[|s.popped|..]))
  }

  lemma ReplayLast<T>(capacity: nat, strict: bool, outcomes: seq<Outcome<T>>, o: Outcome<T>)
    ensures Replay(capacity, strict, outcomes + [o]) ==
            (var before := Replay(capacity, strict, outcomes);
             if before.None? then None else Perform(capacity, strict, before.value, o))
  {
    assert (outcomes + [o])[..|outcomes|] == outcomes;
  }

  lemma StepExplained<T>(size: nat, strict: bool, s: Ring<T>, step: Step<T>)
    requires Explained(size, strict, s) && Enabled(size, s, step)
    requires strict ==> UpToDate(s, step)
    ensures Explained(size, strict, Apply(size, s, step))
  {
    StepInv(size, s, step);
    if step.LoadHead? || step.StoreTail? {
      PushExplained(size, strict, s, step);
    } else {
      PopExplained(size, strict, s, step);
    }
  }

  /** The pusher's steps that decide how its call ends. */
  lemma PushExplained<T>(size: nat, strict: bool, s: Ring<T>, step: Step<T>)
    requires Explained(size, strict, s) && Enabled(size, s, step) && (step.LoadHead? || step.StoreTail?)
    requires strict ==> UpToDate(s, step)
    ensures var s' := Apply(size, s, step);
            Replay(size - 1, strict, s'.outcomes) == Some(Queue(|s'.pushed|, s'.pushed[|s'.popped|..]))
  {
    var s' := Apply(size, s, step);
    match step
    case LoadHead(seen) =>
      FullTestExact(size, s, seen);
      ReplayLast(size - 1, strict, s.outcomes, RefusedFull);
    case StoreTail =>
      ReplayLast(size - 1, strict, s.outcomes, Pushed(s.pusher.item));
      assert s'.pushed[|s.popped|..] == s.pushed[|s.popped|..] + [s.pusher.item];
  }

  /** The popper's steps that decide how its call ends, and the steps that decide nothing. */
  lemma PopExplained<T>(size: nat, strict: bool, s: Ring<T>, step: Step<T>)
    requires Explained(size, strict, s) && Enabled(size, s, step) && !step.LoadHead? && !step.StoreTail?
    requires strict ==> UpToDate(s, step)
    ensures var s' := Apply(size, s, step);
            Replay(size - 1, strict, s'.outcomes) == Some(Queue(|s'.pushed|, s'.pushed[|s'.popped|..]))
  {
    var s' := Apply(size, s, step);
    match step
    case LoadTail(seen) =>
      EmptyTestExact(size, s, seen);
      ReplayLast(size - 1, strict, s.outcomes, FoundEmpty);
    case StoreHead =>
      ReplayLast(size - 1, strict, s.outcomes, Popped(s.popper.item));
      assert s'.pushed[|s'.popped|..] == s.pushed[|s.popped|..][1..];
    case LoadFlag =>
      assert SlotCorrect(size, s, |s.popped|);
    case _ =>
  }

  lemma {:induction false} RunExplained<T>(size: nat, strict: bool, from: Ring<T>, steps: seq<Step<T>>, to: Ring<T>)
    requires Explained(size, strict, from) && Runs(size, from, steps, to)
    requires strict ==> AllUpToDate(size, from, steps)
    ensures Explained(size, strict, to)
    decreases |steps|
  {
    if steps != [] {
      StepExplained(size, strict, from, steps[0]);
      RunExplained(size, strict, Apply(size, from, steps[0]), steps[1..], to);
    }
  }

  /**
   Under any staleness, the finished calls are those of one sequential bounded queue in the order they
   took effect, where a push may be refused once a lap was filled and a pop may find nothing.
   */
  lemma CallsAreAtomic<T>(size: nat, blank: T, steps: seq<Step<T>>, s: Ring<T>)
    requires ValidSize(size) && Runs(size, Initial(size, blank), steps, s)
    ensures |s.popped| <= |s.pushed|
    ensures Replay(size - 1, false, s.outcomes) == Some(Queue(|s.pushed|, s.pushed[|s.popped|..]))
  {
    InitialInv(size, blank);
    RunExplained(size, false, Initial(size, blank), steps, s);
  }

  /** With up-to-date loads the refusals are exact too: every call, failing ones included, is one atomic step. */
  lemma CallsAreAtomicWhenUpToDate<T>(size: nat, blank: T, steps: seq<Step<T>>, s: Ring<T>)
    requires ValidSize(size) && Runs(size, Initial(size, blank), steps, s)
    requires AllUpToDate(size, Initial(size, blank), steps)
    ensures |s.popped| <= |s.pushed|
    ensures Replay(size - 1, true, s.outcomes) == Some(Queue(|s.pushed|, s.pushed[|s.popped|..]))
  {
    InitialInv(size, blank);
    RunExplained(size, true, Initial(size, blank), steps, s);
  }

  /** Every step that finishes a call keeps to the guard of a queue operation, for some position its side has seen. */
  lemma StepKeepsTheGuards<T>(size: nat, s: Ring<T>, step: Step<T>)
    requires Inv(size, s) && Enabled(size, s, step)
    ensures var pushed, popped := |s.pushed|, |s.popped|;
            var s' := Apply(size, s, step);
            match step
            case StoreTail =>
              MayPush(size - 1, pushed, popped, s.headView) && s'.pushed == s.pushed + [s.pusher.item] &&
              s'.popped == s.popped
            case StoreHead =>
              MayTake(pushed, popped, s.tailView) && s'.popped == s.popped + [s.pushed[popped]] &&
              s'.pushed == s.pushed && s.popper.item == s.pushed[popped]
            case LoadHead(seen) =>
              (s'.pusher.PushIdle? ==> MayRefuse(size - 1, pushed, popped, seen)) &&
              s'.pushed == s.pushed && s'.popped == s.popped
            case LoadTail(seen) =>
              (s'.popper.PopIdle? ==> MayMiss(pushed, popped, seen)) &&
              s'.pushed == s.pushed && s'.popped == s.popped
            case _ => s'.pushed == s.pushed && s'.popped == s.popped && s'.outcomes == s.outcomes
    ensures step.LoadFlag? ==> Apply(size, s, step).popper.FlagSeen?
  {
    match step
    case LoadHead(seen) => FullTestExact(size, s, seen);
    case LoadTail(seen) => EmptyTestExact(size, s, seen);
    case LoadFlag => assert SlotCorrect(size, s, |s.popped|);
    case _ =>
  }

  /** So does every finished call of every run. */
  lemma CallsKeepTheGuards<T>(size: nat, blank: T, steps: seq<Step<T>>, s: Ring<T>, step: Step<T>)
    requires ValidSize(size) && Runs(size, Initial(size, blank), steps, s) && Enabled(size, s, step)
    ensures var pushed, popped := |s.pushed|, |s.popped|;
            var s' := Apply(size, s, step);
            match step
            case StoreTail =>
              MayPush(size - 1, pushed, popped, s.headView) && s'.pushed == s.pushed + [s.pusher.item]
            case StoreHead =>
              MayTake(pushed, popped, s.tailView) && s'.popped == s.popped + [s.pushed[popped]]
            case LoadHead(seen) => s'.pusher.PushIdle? ==> MayRefuse(size - 1, pushed, popped, seen)
            case LoadTail(seen) => s'.popper.PopIdle? ==> MayMiss(pushed, popped, seen)
            case _ => s'.pushed == s.pushed && s'.popped == s.popped && s'.outcomes == s.outcomes
  {
    ReachableInv(size, blank, steps, s);
    StepKeepsTheGuards(size, s, step);
  }

  /** A refused push is telling the truth exactly when it read the head as it is. */
  lemma RefusalTruthfulIffUpToDate<T>(size: nat, blank: T, steps: seq<Step<T>>, s: Ring<T>, seen: nat)
    requires ValidSize(size) && Runs(size, Initial(size, blank), steps, s)
    requires Enabled(size, s, LoadHead(seen)) && Apply(size, s, LoadHead(seen)).pusher.PushIdle?
    ensures |s.pushed| - |s.popped| == size - 1 <==> seen == |s.popped|
  {
    ReachableInv(size, blank, steps, s);
    FullTestExact(size, s, seen);
  }

  /** A pop that finds nothing is telling the truth exactly when it read the tail as it is. */
  lemma MissTruthfulIffUpToDate<T>(size: nat, blank: T, steps: seq<Step<T>>, s: Ring<T>, seen: nat)
    requires ValidSize(size) && Runs(size, Initial(size, blank), steps, s)
    requires Enabled(size, s, LoadTail(seen)) && Apply(size, s, LoadTail(seen)).popper.PopIdle?
    ensures |s.pushed| == |s.popped| <==> seen == |s.pushed|
  {
    ReachableInv(size, blank, steps, s);
    EmptyTestExact(size, s, seen);
  }

  // ----- Calls without interference -----

  lemma {:induction false} RunsConcat<T>(size: nat, from: Ring<T>, first: seq<Step<T>>, mid: Ring<T>,
                                              second: seq<Step<T>>, to: Ring<T>)
    requires size > 0 && Runs(size, from, first, mid) && Runs(size, mid, second, to)
    ensures Runs(size, from, first + second, to)
    decreases |first|
  {
    if first == [] {
      assert first + second == second;
    } else {
      RunsConcat(size, Apply(size, from, first[0]), first[1..], mid, second, to);
      assert (first + second)[1..] == first[1..] + second;
    }
  }

  lemma RunsFirst<T>(size: nat, s: Ring<T>, step: Step<T>, rest: seq<Step<T>>, to: Ring<T>)
    requires size > 0 && Enabled(size, s, step) && Runs(size, Apply(size, s, step), rest, to)
    ensures Runs(size, s, [step] + rest, to)
  {
    assert ([step] + rest)[1..] == rest;
  }

  /** The ring after an undisturbed push that sees the head at position `seen`. */
  ghost function AfterPush<T>(size: nat, s: Ring<T>, item: T, seen: nat): Ring<T>
    requires size > 0 && s.tail < |s.slots|
  {
    if |s.pushed| - seen == size - 1
    then s.(headView := seen, outcomes := s.outcomes + [RefusedFull])
    else s.(headView := seen, slots := s.slots[s.tail := Slot(item, true)], tail := Mask(s.tail + 1, size),
            pushed := s.pushed + [item], outcomes := s.outcomes + [Pushed(item)])
  }

  /** The ring after an undisturbed pop that sees the tail at position `seen`. */
  ghost function AfterPop<T>(size: nat, s: Ring<T>, seen: nat): Ring<T>
    requires size > 0 && s.head < |s.slots| && |s.popped| <= seen <= |s.pushed|
  {
    if seen == |s.popped|
    then s.(tailView := seen, outcomes := s.outcomes + [FoundEmpty])
    else
      var item := s.pushed[|s.popped|];
      s.(tailView := seen, slots := s.slots[s.head := Slot(item, false)], head := Mask(s.head + 1, size),
         popped := s.popped + [item], outcomes := s.outcomes + [Popped(item)])
  }

  /** From seeing room to publishing the element. */
  lemma PublishAlone<T>(size: nat, s: Ring<T>) returns (steps: seq<Step<T>>, s': Ring<T>)
    requires Inv(size, s) && s.pusher.RoomSeen?
    ensures steps == [WriteData, RaiseFlag, StoreTail] && Runs(size, s, steps, s')
    ensures s' == s.(slots := s.slots[s.tail := Slot(s.pusher.item, true)], tail := Mask(s.tail + 1, size),
                     pushed := s.pushed + [s.pusher.item], outcomes := s.outcomes + [Pushed(s.pusher.item)],
                     pusher := PushIdle)
  {
    var s1 := Apply(size, s, WriteData);
    var s2 := Apply(size, s1, RaiseFlag);
    s' := Apply(size, s2, StoreTail);
    RunsFirst(size, s2, StoreTail, [], s');
    RunsFirst(size, s1, RaiseFlag, [StoreTail], s');
    RunsFirst(size, s, WriteData, [RaiseFlag] + [StoreTail], s');
    steps := [WriteData] + ([RaiseFlag] + [StoreTail]);
  }

  /** From the call to seeing the head, or being refused. */
  lemma BeginAlone<T>(size: nat, s: Ring<T>, item: T, seen: nat) returns (s': Ring<T>)
    requires Inv(size, s) && s.pusher.PushIdle? && s.headView <= seen <= |s.popped|
    ensures Runs(size, s, [BeginPush(item)] + [LoadHead(seen)], s') && Inv(size, s')
    ensures var full := |s.pushed| - seen == size - 1;
            s' == s.(headView := seen,
                     outcomes := s.outcomes + (if full then [RefusedFull] else []),
                     pusher := if full then PushIdle else RoomSeen(item, s.tail))
  {
    var s1 := Apply(size, s, BeginPush(item));
    StepInv(size, s, BeginPush(item));
    FullTestExact(size, s1, seen);
    s' := Apply(size, s1, LoadHead(seen));
    StepInv(size, s1, LoadHead(seen));
    RunsFirst(size, s1, LoadHead(seen), [], s');
    RunsFirst(size, s, BeginPush(item), [LoadHead(seen)], s');
  }

  /** A push that sees the head at position `seen`, undisturbed: refused, or done with the element in its slot. */
  lemma PushAlone<T>(size: nat, s: Ring<T>, item: T, seen: nat) returns (steps: seq<Step<T>>, s': Ring<T>)
    requires Inv(size, s) && s.pusher.PushIdle? && s.headView <= seen <= |s.popped|
    ensures Runs(size, s, steps, s') && Inv(size, s')
    ensures steps == [BeginPush(item), LoadHead(seen)] +
                     (if |s.pushed| - seen == size - 1 then [] else [WriteData, RaiseFlag, StoreTail])
    ensures s' == AfterPush(size, s, item, seen)
  {
    var s2 := BeginAlone(size, s, item, seen);
    steps, s' := [BeginPush(item)] + [LoadHead(seen)], s2;
    if |s.pushed| - seen != size - 1 {
      var more;
      more, s' := PublishAlone(size, s2);
      RunsConcat(size, s, steps, s2, more, s');
      steps := steps + more;
    }
    RunInv(size, s, steps, s');
  }

  /** From seeing an element to releasing its slot. */
  lemma TakeAlone<T>(size: nat, s: Ring<T>) returns (steps: seq<Step<T>>, s': Ring<T>)
    requires Inv(size, s) && s.popper.TailSeen?
    ensures steps == [LoadFlag, ReadData, LowerFlag, StoreHead] && Runs(size, s, steps, s')
    ensures var item := s.pushed[|s.popped|];
            s' == s.(slots := s.slots[s.head := Slot(item, false)], head := Mask(s.head + 1, size),
                     popped := s.popped + [item], outcomes := s.outcomes + [Popped(item)], popper := PopIdle)
  {
    assert SlotCorrect(size, s, |s.popped|);
    var s1 := Apply(size, s, LoadFlag);
    var s2 := Apply(size, s1, ReadData);
    var s3 := Apply(size, s2, LowerFlag);
    s' := Apply(size, s3, StoreHead);
    RunsFirst(size, s3, StoreHead, [], s');
    RunsFirst(size, s2, LowerFlag, [StoreHead], s');
    RunsFirst(size, s1, ReadData, [LowerFlag] + [StoreHead], s');
    RunsFirst(size, s, LoadFlag, [ReadData] + ([LowerFlag] + [StoreHead]), s');
    steps := [LoadFlag] + ([ReadData] + ([LowerFlag] + [StoreHead]));
  }

  /**
   A pop that sees the tail at position `seen`, undisturbed: nothing found, or the oldest element taken and its slot
   released.
   */
  lemma PopAlone<T>(size: nat, s: Ring<T>, seen: nat) returns (steps: seq<Step<T>>, s': Ring<T>)
    requires Inv(size, s) && s.popper.PopIdle? && s.tailView <= seen <= |s.pushed|
    ensures Runs(size, s, steps, s') && Inv(size, s')
    ensures steps == [BeginPop, LoadTail(seen)] +
                     (if seen == |s.popped| then [] else [LoadFlag, ReadData, LowerFlag, StoreHead])
    ensures s' == AfterPop(size, s, seen)
  {
    var s1 := Apply(size, s, BeginPop);
    StepInv(size, s, BeginPop);
    EmptyTestExact(size, s1, seen);
    var s2 := Apply(size, s1, LoadTail(seen));
    StepInv(size, s1, LoadTail(seen));
    RunsFirst(size, s1, LoadTail(seen), [], s2);
    RunsFirst(size, s, BeginPop, [LoadTail(seen)], s2);
    steps, s' := [BeginPop] + [LoadTail(seen)], s2;
    if seen != |s.popped| {
      var more;
      more, s' := TakeAlone(size, s2);
      RunsConcat(size, s, steps, s2, more, s');
      steps := steps + more;
    }
    RunInv(size, s, steps, s');
  }

  /** Stale refusals do happen: a ring of two slots that holds nothing refuses a push. */
  lemma StaleRefusal(x: int, y: int) returns (steps: seq<Step<int>>, s: Ring<int>)
    ensures ValidSize(2) && Runs(2, Initial(2, 0), steps, s)
    ensures s.pushed == s.popped == [x] && s.outcomes == [Pushed(x), Popped(x), RefusedFull]
  {
    assert Power2(1) == 2;
    InitialInv(2, 0);
    var first, s1 := PushAlone(2, Initial(2, 0), x, 0);
    var second, s2 := PopAlone(2, s1, 1);
    var third, s3 := PushAlone(2, s2, y, 0);
    RunsConcat(2, s1, second, s2, third, s3);
    RunsConcat(2, Initial(2, 0), first, s1, second + third, s3);
    steps, s := first + (second + third), s3;
  }

  /** So do stale misses: a ring that holds an element is found empty. */
  lemma StaleMiss(x: int) returns (steps: seq<Step<int>>, s: Ring<int>)
    ensures ValidSize(2) && Runs(2, Initial(2, 0), steps, s)
    ensures s.pushed == [x] && s.popped == [] && s.outcomes == [Pushed(x), FoundEmpty]
  {
    assert Power2(1) == 2;
    InitialInv(2, 0);
    var first, s1 := PushAlone(2, Initial(2, 0), x, 0);
    var second, s2 := PopAlone(2, s1, 0);
    RunsConcat(2, Initial(2, 0), first, s1, second, s2);
    steps, s := first + second, s2;
  }
}
