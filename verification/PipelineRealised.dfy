/**
 The other direction of `PipelineRings`: whatever the pipeline can do with current views, the system over its rings can
 do, load by load and store by store.
 */
module PipelineRealised {
  import opened Wrappers
  import opened Messages
  import Machine = SpscMachine
  import opened Pipeline
  import opened PipelineInvariant
  import opened PipelineFairness
  import opened PipelineStopOrder
  import opened PipelineNoLoss
  import opened PipelineWitnesses
  import opened PipelineRings

  /** The side of the queue that the step uses is not amid a call. */
  ghost predicate SideIdle(p: Plant, sys: System, s: State, step: Step)
    requires Enabled(p.c, s, step)
  {
    match step
    case Take(t, _, _) => p.RingAt(sys, Input(t, PcOf(s, t).i)).popper.PopIdle?
    case Miss(t, _) => p.RingAt(sys, Input(t, PcOf(s, t).i)).popper.PopIdle?
    case Push(t, _) => p.RingAt(sys, Target(p.c, t, Held(s, t).value).value).pusher.PushIdle?
    case Refuse(t, _) => p.RingAt(sys, Target(p.c, t, Held(s, t).value).value).pusher.PushIdle?
    case _ => true
  }

  /** The thread has not seen the other side's index later than the step does. */
  ghost predicate CanSee(p: Plant, sys: System, s: State, step: Step)
    requires Enabled(p.c, s, step)
  {
    match step
    case Take(t, seen, _) => p.RingAt(sys, Input(t, PcOf(s, t).i)).tailView <= seen
    case Miss(t, seen) => p.RingAt(sys, Input(t, PcOf(s, t).i)).tailView <= seen
    case Push(t, seen) => p.RingAt(sys, Target(p.c, t, Held(s, t).value).value).headView <= seen
    case Refuse(t, seen) => p.RingAt(sys, Target(p.c, t, Held(s, t).value).value).headView <= seen
    case _ => true
  }

  /** No side of a ring that was idle is amid a call. */
  ghost predicate StaysIdle(p: Plant, sys: System, sys': System) {
    forall q ::
      && (p.RingAt(sys, q).pusher.PushIdle? ==> p.RingAt(sys', q).pusher.PushIdle?)
      && (p.RingAt(sys, q).popper.PopIdle? ==> p.RingAt(sys', q).popper.PopIdle?)
  }

  // ----- Moves one after the other -----

  lemma {:induction false} OperateAppend(p: Plant, sys: System, a: seq<Move>, sys1: System, b: seq<Move>)
    requires Operate(p, sys, a) == Some(sys1)
    ensures Operate(p, sys, a + b) == Operate(p, sys1, b)
    decreases |a|
  {
    if a == [] {
      assert a + b == b;
    } else {
      assert (a + b)[0] == a[0] && (a + b)[1..] == a[1..] + b;
      OperateAppend(p, Do(p, sys, a[0]), a[1..], sys1, b);
    }
  }

  lemma OperateOne(p: Plant, sys: System, move: Move)
    requires Can(p, sys, move)
    ensures Operate(p, sys, [move]) == Some(Do(p, sys, move))
  {
    assert [move][1..] == [];
    assert Operate(p, Do(p, sys, move), []) == Some(Do(p, sys, move));
  }

  lemma OperateMore(p: Plant, sys: System, a: seq<Move>, sys1: System, move: Move)
    requires Operate(p, sys, a) == Some(sys1) && Can(p, sys1, move)
    ensures Operate(p, sys, a + [move]) == Some(Do(p, sys1, move))
  {
    OperateAppend(p, sys, a, sys1, [move]);
    OperateOne(p, sys1, move);
  }

  // ----- Calls under way -----

  /**
   Some moves at one queue that the pipeline does not notice have led here: the ring is now this one, everything else
   is as it was.
   */
  ghost predicate Underway(p: Plant, sys: System, s: State, q: QueueId, moves: seq<Move>, sys': System, ring: Ring) {
    && Operate(p, sys, moves) == Some(sys') && StandsFor(p, sys', s) && AtCalls(p, sys')
    && sys'.own == sys.own && p.RingAt(sys', q) == ring && Machine.Inv(p.Size(), ring)
    && forall r :: r != q ==> p.RingAt(sys', r) == p.RingAt(sys, r)
  }

  lemma GoOn(p: Plant, sys: System, s: State, q: QueueId, moves: seq<Move>, sys1: System, ring: Ring,
             a: Machine.Step<Message>) returns (more: seq<Move>, sys': System, ring': Ring)
    requires Underway(p, sys, s, q, moves, sys1, ring) && Can(p, sys1, Access(q, a, 0))
    requires !a.StoreTail? && !a.StoreHead?
    requires a.LoadHead? ==> !Machine.Apply(p.Size(), ring, a).pusher.PushIdle?
    requires a.LoadTail? ==> !Machine.Apply(p.Size(), ring, a).popper.PopIdle?
    ensures ring' == Machine.Apply(p.Size(), ring, a) && Underway(p, sys, s, q, more, sys', ring')
  {
    var move := Access(q, a, 0);
    Machine.StepInv(p.Size(), ring, a);
    Machine.StepKeepsTheGuards(p.Size(), ring, a);
    SilentStep(p, sys1, s, q, a, 0);
    OperateMore(p, sys, moves, sys1, move);
    more, sys', ring' := moves + [move], Do(p, sys1, move), Machine.Apply(p.Size(), ring, a);
    forall r ensures p.RingAt(sys', r) == if r == q then ring' else p.RingAt(sys, r) {
      RingAfter(p, sys1, q, a, 0, r);
    }
  }

  lemma NothingYet(p: Plant, sys: System, s: State, q: QueueId)
    requires StandsFor(p, sys, s) && AtCalls(p, sys)
    ensures Underway(p, sys, s, q, [], sys, p.RingAt(sys, q))
  {
    assert RingOk(p, sys, s, q);
  }

  // ----- Whole calls -----

  lemma SeenInRing(p: Plant, sys: System, s: State, q: QueueId)
    requires StandsFor(p, sys, s)
    ensures var ring := p.RingAt(sys, q);
            && Machine.Inv(p.Size(), ring) && |ring.popped| <= |ring.pushed|
            && PushedTo(s, q) == |ring.pushed| && PoppedFrom(s, q) == |ring.popped|
  {
    assert RingOk(p, sys, s, q);
  }

  /** The thread that holds a message for this queue begins to push it. */
  lemma BeginPush(p: Plant, sys: System, s: State, q: QueueId, m: Message)
    returns (moves: seq<Move>, sys': System, ring': Ring)
    requires StandsFor(p, sys, s) && AtCalls(p, sys) && p.RingAt(sys, q).pusher.PushIdle?
    requires CanSend(p.c, s, Pusher(q)) && Held(s, Pusher(q)) == Some(m) && Target(p.c, Pusher(q), m) == Some(q)
    ensures var ring := p.RingAt(sys, q);
            ring' == ring.(pusher := Machine.TailLoaded(m, ring.tail)) && Underway(p, sys, s, q, moves, sys', ring')
  {
    NothingYet(p, sys, s, q);
    assert Content(s.at, Hand(Pusher(q))) == Content(sys.own.at, Hand(Pusher(q)));
    moves, sys', ring' := GoOn(p, sys, s, q, [], sys, p.RingAt(sys, q), Machine.BeginPush(m));
  }

  lemma BeginPop(p: Plant, sys: System, s: State, q: QueueId) returns (moves: seq<Move>, sys': System, ring': Ring)
    requires StandsFor(p, sys, s) && AtCalls(p, sys) && p.RingAt(sys, q).popper.PopIdle?
    requires Popping(p.c, s, q)
    ensures var ring := p.RingAt(sys, q);
            ring' == ring.(popper := Machine.HeadLoaded(ring.head)) && Underway(p, sys, s, q, moves, sys', ring')
  {
    NothingYet(p, sys, s, q);
    moves, sys', ring' := GoOn(p, sys, s, q, [], sys, p.RingAt(sys, q), Machine.BeginPop);
  }

  /** From having read the tail to the store of the new one. */
  lemma PushOn(p: Plant, sys: System, s: State, q: QueueId, begun: seq<Move>, sys1: System, ring1: Ring, seen: nat)
    returns (moves: seq<Move>, sys': System, ring': Ring)
    requires Underway(p, sys, s, q, begun, sys1, ring1) && ring1.pusher.TailLoaded?
    requires ring1.headView <= seen <= |ring1.popped| && |ring1.pushed| - seen < p.c.capacity
    ensures Underway(p, sys, s, q, moves, sys', ring')
    ensures ring'.pusher.FlagRaised? && ring'.headView == seen && ring'.popper == ring1.popper
  {
    Machine.FullTestExact(p.Size(), ring1, seen);
    var sys2, ring2;
    moves, sys2, ring2 := GoOn(p, sys, s, q, begun, sys1, ring1, Machine.LoadHead(seen));
    var sys3, ring3;
    moves, sys3, ring3 := GoOn(p, sys, s, q, moves, sys2, ring2, Machine.WriteData);
    moves, sys', ring' := GoOn(p, sys, s, q, moves, sys3, ring3, Machine.RaiseFlag);
  }

  /** From having read the head to the store of the new one. */
  lemma PopOn(p: Plant, sys: System, s: State, q: QueueId, begun: seq<Move>, sys1: System, ring1: Ring, seen: nat)
    returns (moves: seq<Move>, sys': System, ring': Ring)
    requires Underway(p, sys, s, q, begun, sys1, ring1) && ring1.popper.HeadLoaded?
    requires ring1.tailView <= seen <= |ring1.pushed| && |ring1.popped| < seen
    ensures Underway(p, sys, s, q, moves, sys', ring')
    ensures ring'.popper.FlagLowered? && ring'.tailView == seen && ring'.pusher == ring1.pusher
  {
    Machine.EmptyTestExact(p.Size(), ring1, seen);
    var sys2, ring2;
    moves, sys2, ring2 := GoOn(p, sys, s, q, begun, sys1, ring1, Machine.LoadTail(seen));
    var sys3, ring3;
    Machine.StepKeepsTheGuards(p.Size(), ring2, Machine.LoadFlag);
    moves, sys3, ring3 := GoOn(p, sys, s, q, moves, sys2, ring2, Machine.LoadFlag);
    var sys4, ring4;
    moves, sys4, ring4 := GoOn(p, sys, s, q, moves, sys3, ring3, Machine.ReadData);
    moves, sys', ring' := GoOn(p, sys, s, q, moves, sys4, ring4, Machine.LowerFlag);
  }

  /** The access that ends the call. */
  lemma Return(p: Plant, sys: System, s: State, q: QueueId, begun: seq<Move>, sys1: System, ring1: Ring,
               a: Machine.Step<Message>, now: int) returns (moves: seq<Move>, sys': System)
    requires Underway(p, sys, s, q, begun, sys1, ring1) && Can(p, sys1, Access(q, a, now))
    requires var (ring, ring') := (p.RingAt(sys, q), Machine.Apply(p.Size(), ring1, a));
             && (ring.pusher.PushIdle? ==> ring'.pusher.PushIdle?)
             && (ring.popper.PopIdle? ==> ring'.popper.PopIdle?)
    ensures sys' == Do(p, sys1, Access(q, a, now)) && Operate(p, sys, moves) == Some(sys')
    ensures StaysIdle(p, sys, sys')
  {
    OperateMore(p, sys, begun, sys1, Access(q, a, now));
    moves, sys' := begun + [Access(q, a, now)], Do(p, sys1, Access(q, a, now));
    forall r ensures (p.RingAt(sys, r).pusher.PushIdle? ==> p.RingAt(sys', r).pusher.PushIdle?) &&
                     (p.RingAt(sys, r).popper.PopIdle? ==> p.RingAt(sys', r).popper.PopIdle?)
    {
      RingAfter(p, sys1, q, a, now, r);
    }
  }

  lemma PushCall(p: Plant, sys: System, s: State, step: Step) returns (moves: seq<Move>, sys': System)
    requires StandsFor(p, sys, s) && AtCalls(p, sys) && HandsOk(p.c, s)
    requires step.Push? && Enabled(p.c, s, step) && SideIdle(p, sys, s, step) && CanSee(p, sys, s, step)
    ensures Operate(p, sys, moves) == Some(sys') && StandsFor(p, sys', Apply(p.c, s, step)) && AtCalls(p, sys')
    ensures StaysIdle(p, sys, sys')
  {
    var m := Held(s, step.t).value;
    var q := Target(p.c, step.t, m).value;
    assert step.t == Pusher(q);
    SeenInRing(p, sys, s, q);
    var begun, sys1, ring1 := BeginPush(p, sys, s, q, m);
    var on, sys2, ring2 := PushOn(p, sys, s, q, begun, sys1, ring1, step.seen);
    moves, sys' := Return(p, sys, s, q, on, sys2, ring2, Machine.StoreTail, 0);
    var done, s' := PushReturns(p, sys2, s, q, 0);
  }

  lemma RefuseCall(p: Plant, sys: System, s: State, step: Step) returns (moves: seq<Move>, sys': System)
    requires StandsFor(p, sys, s) && AtCalls(p, sys) && HandsOk(p.c, s)
    requires step.Refuse? && Enabled(p.c, s, step) && SideIdle(p, sys, s, step) && CanSee(p, sys, s, step)
    ensures Operate(p, sys, moves) == Some(sys') && StandsFor(p, sys', Apply(p.c, s, step)) && AtCalls(p, sys')
    ensures StaysIdle(p, sys, sys')
  {
    var m := Held(s, step.t).value;
    var q := Target(p.c, step.t, m).value;
    assert step.t == Pusher(q);
    SeenInRing(p, sys, s, q);
    var begun, sys1, ring1 := BeginPush(p, sys, s, q, m);
    Machine.FullTestExact(p.Size(), ring1, step.seen);
    moves, sys' := Return(p, sys, s, q, begun, sys1, ring1, Machine.LoadHead(step.seen), 0);
    var done, s' := RefusalReturns(p, sys1, s, q, step.seen, 0);
  }

  lemma TakeCall(p: Plant, sys: System, s: State, step: Step) returns (moves: seq<Move>, sys': System)
    requires StandsFor(p, sys, s) && AtCalls(p, sys)
    requires step.Take? && Enabled(p.c, s, step) && SideIdle(p, sys, s, step) && CanSee(p, sys, s, step)
    ensures Operate(p, sys, moves) == Some(sys') && StandsFor(p, sys', Apply(p.c, s, step)) && AtCalls(p, sys')
    ensures StaysIdle(p, sys, sys')
  {
    var q := Input(step.t, PcOf(s, step.t).i);
    assert Popping(p.c, s, q) && Consumer(q) == step.t;
    SeenInRing(p, sys, s, q);
    var begun, sys1, ring1 := BeginPop(p, sys, s, q);
    var on, sys2, ring2 := PopOn(p, sys, s, q, begun, sys1, ring1, step.seen);
    moves, sys' := Return(p, sys, s, q, on, sys2, ring2, Machine.StoreHead, step.now);
    var done, s' := PopReturns(p, sys2, s, q, step.now);
  }

  lemma MissCall(p: Plant, sys: System, s: State, step: Step) returns (moves: seq<Move>, sys': System)
    requires StandsFor(p, sys, s) && AtCalls(p, sys)
    requires step.Miss? && Enabled(p.c, s, step) && SideIdle(p, sys, s, step) && CanSee(p, sys, s, step)
    ensures Operate(p, sys, moves) == Some(sys') && StandsFor(p, sys', Apply(p.c, s, step)) && AtCalls(p, sys')
    ensures StaysIdle(p, sys, sys')
  {
    var q := Input(step.t, PcOf(s, step.t).i);
    assert Popping(p.c, s, q) && Consumer(q) == step.t;
    SeenInRing(p, sys, s, q);
    var begun, sys1, ring1 := BeginPop(p, sys, s, q);
    Machine.EmptyTestExact(p.Size(), ring1, step.seen);
    moves, sys' := Return(p, sys, s, q, begun, sys1, ring1, Machine.LoadTail(step.seen), 0);
    var done, s' := MissReturns(p, sys1, s, q, step.seen, 0);
  }

  lemma LocalMove(p: Plant, sys: System, s: State, step: Step) returns (moves: seq<Move>, sys': System)
    requires StandsFor(p, sys, s) && AtCalls(p, sys) && TouchesNoQueue(step) && Enabled(p.c, s, step)
    ensures Operate(p, sys, moves) == Some(sys') && StandsFor(p, sys', Apply(p.c, s, step)) && AtCalls(p, sys')
    ensures StaysIdle(p, sys, sys')
  {
    AlsoEnabled(p.c, sys.own, s, step);
    hide Enabled, Apply, StandsFor;
    LocalStep(p, sys, s, step);
    OperateOne(p, sys, Local(step));
    moves, sys' := [Local(step)], Do(p, sys, Local(step));
  }

  lemma AlsoEnabled(c: Setup, own: State, s: State, step: Step)
    requires Alike(own, s) && TouchesNoQueue(step) && Enabled(c, s, step)
    ensures Enabled(c, own, step)
  {
    var t := Mover(c, step);
    assert Content(s.at, Hand(t)) == Content(own.at, Hand(t));
  }

  /**
   Whatever the pipeline can do next, the system over its rings can do, if the thread is not amid another call at that
   side of the queue and its view is one it can still have: the moves are given, and lead to the state the step leads
   to.
   */
  lemma StepIsPossible(p: Plant, sys: System, s: State, step: Step) returns (moves: seq<Move>, sys': System)
    requires StandsFor(p, sys, s) && AtCalls(p, sys) && Shape(p.c, s)
    requires Enabled(p.c, s, step) && SideIdle(p, sys, s, step) && CanSee(p, sys, s, step)
    ensures Operate(p, sys, moves) == Some(sys') && StandsFor(p, sys', Apply(p.c, s, step)) && AtCalls(p, sys')
    ensures StaysIdle(p, sys, sys')
  {
    if step.Push? {
      moves, sys' := PushCall(p, sys, s, step);
    } else if step.Refuse? {
      moves, sys' := RefuseCall(p, sys, s, step);
    } else if step.Take? {
      moves, sys' := TakeCall(p, sys, s, step);
    } else if step.Miss? {
      moves, sys' := MissCall(p, sys, s, step);
    } else {
      moves, sys' := LocalMove(p, sys, s, step);
    }
  }

  /** A current view is always one the thread can have. */
  lemma CurrentCanBeSeen(p: Plant, sys: System, s: State, step: Step)
    requires StandsFor(p, sys, s) && Enabled(p.c, s, step) && Current(p.c, s, step)
    ensures CanSee(p, sys, s, step)
  {
    match step
    case Take(t, _, _) => SeenInRing(p, sys, s, Input(t, PcOf(s, t).i));
    case Miss(t, _) => SeenInRing(p, sys, s, Input(t, PcOf(s, t).i));
    case Push(t, _) => SeenInRing(p, sys, s, Target(p.c, t, Held(s, t).value).value);
    case Refuse(t, _) => SeenInRing(p, sys, s, Target(p.c, t, Held(s, t).value).value);
    case _ =>
  }

  ghost predicate AllIdle(p: Plant, sys: System) {
    forall q :: p.RingAt(sys, q).pusher.PushIdle? && p.RingAt(sys, q).popper.PopIdle?
  }

  lemma {:induction false} RunIsPossible(p: Plant, sys: System, s: State, steps: seq<Step>, s': State)
    returns (moves: seq<Move>, sys': System)
    requires StandsFor(p, sys, s) && AtCalls(p, sys) && AllIdle(p, sys) && Shape(p.c, s)
    requires Execute(p.c, s, steps) == Some(s') && AllCurrent(p.c, s, steps)
    ensures Operate(p, sys, moves) == Some(sys') && StandsFor(p, sys', s')
    decreases |steps|
  {
    if steps == [] {
      moves, sys' := [], sys;
    } else {
      CurrentCanBeSeen(p, sys, s, steps[0]);
      var first, sys1 := StepIsPossible(p, sys, s, steps[0]);
      StepShape(p.c, s, steps[0]);
      var rest;
      rest, sys' := RunIsPossible(p, sys1, Apply(p.c, s, steps[0]), steps[1..], s');
      OperateAppend(p, sys, first, sys1, rest);
      moves := first + rest;
    }
  }

  /** Every run of the pipeline in which every view is current is one the system over its rings can make. */
  lemma RingsRealise(p: Plant, steps: seq<Step>, s: State)
    requires Machine.ValidSize(p.Size())
    requires Execute(p.c, INITIAL, steps) == Some(s) && AllCurrent(p.c, INITIAL, steps)
    ensures exists moves, sys :: Operate(p, START, moves) == Some(sys) && StandsFor(p, sys, s)
  {
    StartStandsFor(p);
    InitialShape(p.c);
    var moves, sys := RunIsPossible(p, START, INITIAL, steps, s);
  }

  /** So it does deliver: of every producer there is and every type with a route, a message, load by load. */
  lemma RingsDeliver(p: Plant, producer: nat, msgType: nat)
    requires Machine.ValidSize(p.Size()) && producer < p.c.config.producers
    requires msgType <= 3 && HasRoute(p.c, msgType)
    ensures exists moves, sys :: Operate(p, START, moves) == Some(sys) &&
              |OfKey(Content(sys.own.at, Delivered(p.c.config.StrategyFor(msgType))), Key(producer, msgType))| == 1
  {
    var steps, s := MakeAndDeliver(p.c, producer, msgType);
    RingsRealise(p, steps, s);
    var moves, sys :| Operate(p, START, moves) == Some(sys) && StandsFor(p, sys, s);
    assert Content(s.at, Delivered(p.c.config.StrategyFor(msgType))) ==
           Content(sys.own.at, Delivered(p.c.config.StrategyFor(msgType)));
  }
}
