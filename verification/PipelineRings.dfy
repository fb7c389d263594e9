/**
 The same system with the queues it really has: every queue is a ring machine, and every load and store of a queue call
 is a step of its own, taken by the thread at that end of the queue, between any steps of all others. Each of its runs
 is, apart from steps that nobody else notices, a run of the pipeline in which a queue call is one step.
 */
module PipelineRings {
  import opened Wrappers
  import opened Messages
  import opened QueueGuards
  import Machine = SpscMachine
  import opened Pipeline
  import opened PipelineFlow
  import opened PipelineInvariant
  import opened PipelineDelivery
  import opened PipelineReport
  import opened PipelineStopOrder

  type Ring = Machine.Ring<Message>

  /** The rings, and everything else; the queues of `own` are not used. */
  datatype System = System(rings: map<QueueId, Ring>, own: State)

  /** The configuration, and what the slots of a ring hold at first. */
  datatype Plant = Plant(c: Setup, blank: Message) {
    function Size(): nat { c.capacity + 1 }

    function RingAt(sys: System, q: QueueId): Ring {
      Get(sys.rings, q, Machine.Initial(Size(), blank))
    }
  }

  datatype Move =
    | Local(step: Step)                                           // a thread's step that touches no queue
    | Access(q: QueueId, access: Machine.Step<Message>, now: int) // a load or store of a queue call; `now`: after a pop

  const START: System := System(map[], INITIAL)

  predicate TouchesNoQueue(step: Step) {
    step.Check? || step.Generate? || step.Wrap? || step.Reject? || step.Count? || step.Deliver? || step.Stop?
  }

  /** The thread that pushes to the queue is about to try that, or amid it. */
  predicate Pushing(c: Setup, own: State, q: QueueId) {
    var t := Pusher(q);
    CanSend(c, own, t) && Target(c, t, Held(own, t).value).value == q
  }

  /** The thread that pops the queue is about to try that, or amid it. */
  predicate Popping(c: Setup, own: State, q: QueueId) {
    c.Runs(Consumer(q)) && HasInput(c, q) && PcOf(own, Consumer(q)) == Scanning(InputIndex(q))
  }

  /** A thread begins a call where its loop does; after that the ring's step order is the thread's own. */
  predicate Can(p: Plant, sys: System, move: Move) {
    match move
    case Local(step) => TouchesNoQueue(step) && Enabled(p.c, sys.own, step)
    case Access(q, step, _) =>
      && Machine.Enabled(p.Size(), p.RingAt(sys, q), step)
      && (step.BeginPush? ==> Pushing(p.c, sys.own, q) && step.item == Held(sys.own, Pusher(q)).value)
      && (step.BeginPop? ==> Popping(p.c, sys.own, q))
  }

  function InputOf(pc: Pc): nat {
    match pc
    case Scanning(i) => i
    case Sending(i, _) => i
    case _ => 0
  }

  function TriesOf(pc: Pc): nat {
    if pc.Sending? then pc.tries else 0
  }

  // What a thread does when its call returns.

  function AfterPush(own: State, t: Thread): State {
    own.(at := own.at[Hand(t) := []], pc := own.pc[t := Counting(InputOf(PcOf(own, t)), true)])
  }

  function AfterRefusal(own: State, t: Thread): State {
    var i, tries := InputOf(PcOf(own, t)), TriesOf(PcOf(own, t)) + 1;
    if tries < Limit(t) then own.(pc := own.pc[t := Sending(i, tries)])
    else
      var bin := Dropped(t, RetriesExhausted);
      own.(at := own.at[Hand(t) := []][bin := Content(own.at, bin) + Content(own.at, Hand(t))],
           pc := own.pc[t := if t.Router1? || t.Router2? then Counting(i, false) else Resume(t, i)])
  }

  function AfterPop(own: State, t: Thread, m: Message): State {
    own.(at := own.at[Hand(t) := Content(own.at, Hand(t)) + [m]],
         pc := own.pc[t := Sending(InputOf(PcOf(own, t)), 0)])
  }

  function AfterMiss(own: State, t: Thread): State {
    own.(pc := own.pc[t := Scanning(InputOf(PcOf(own, t)) + 1)])
  }

  /** What the ring's step returns to the thread that takes it, if it ends the call. */
  function Returned(own: State, q: QueueId, ring: Ring, step: Machine.Step<Message>, ring': Ring, now: int): State {
    match step
    case StoreTail => AfterPush(own, Pusher(q))
    case LoadHead(_) => if ring'.pusher.PushIdle? then AfterRefusal(own, Pusher(q)) else own
    case LoadTail(_) => if ring'.popper.PopIdle? then AfterMiss(own, Consumer(q)) else own
    case LoadFlag => if ring'.popper.PopIdle? then AfterMiss(own, Consumer(q)) else own
    case StoreHead =>
      if ring.popper.FlagLowered? then AfterPop(own, Consumer(q), Stamp(Consumer(q), ring.popper.item, now)) else own
    case _ => own
  }

  function Do(p: Plant, sys: System, move: Move): System
    requires Can(p, sys, move)
  {
    match move
    case Local(step) => sys.(own := Apply(p.c, sys.own, step))
    case Access(q, step, now) =>
      var ring := p.RingAt(sys, q);
      var ring' := Machine.Apply(p.Size(), ring, step);
      System(sys.rings[q := ring'], Returned(sys.own, q, ring, step, ring', now))
  }

  /** The system the moves lead to, if each can be made where it is made. */
  function Operate(p: Plant, sys: System, moves: seq<Move>): Option<System>
    decreases |moves|
  {
    if moves == [] then Some(sys)
    else if Can(p, sys, moves[0]) then Operate(p, Do(p, sys, moves[0]), moves[1..])
    else None
  }

  // ----- The pipeline state it stands for -----

  /** The same apart from queues, and each queue holds what its ring was pushed and not popped. */
  ghost predicate StandsFor(p: Plant, sys: System, s: State) {
    Alike(sys.own, s) && forall q :: RingOk(p, sys, s, q)
  }

  ghost predicate Alike(own: State, s: State) {
    && s == own.(at := s.at, pushed := s.pushed)
    && forall place: Place :: !place.Queue? ==> Content(s.at, place) == Content(own.at, place)
  }

  ghost predicate RingOk(p: Plant, sys: System, s: State, q: QueueId) {
    var ring := p.RingAt(sys, q);
    && Machine.Inv(p.Size(), ring)
    && PushedTo(s, q) == |ring.pushed| && Waiting(s, q) == ring.pushed[|ring.popped|..]
  }

  /** While a call is under way, its thread is where it made the call, with the same message. */
  ghost predicate AtCalls(p: Plant, sys: System) {
    forall q :: AtCall(p, sys, q)
  }

  ghost predicate AtCall(p: Plant, sys: System, q: QueueId) {
    var ring := p.RingAt(sys, q);
    && (!ring.pusher.PushIdle? ==>
          Pushing(p.c, sys.own, q) && ring.pusher.item == Held(sys.own, Pusher(q)).value)
    && (!ring.popper.PopIdle? ==> Popping(p.c, sys.own, q))
  }

  // ----- A step that touches no queue -----

  lemma SameEnabled(c: Setup, own: State, s: State, step: Step)
    requires Alike(own, s) && TouchesNoQueue(step) && Enabled(c, own, step)
    ensures Enabled(c, s, step) && EffectOf(c, s, step) == EffectOf(c, own, step)
    ensures NextPc(c, s, step) == NextPc(c, own, step)
  {
    var t := Mover(c, step);
    assert Content(s.at, Hand(t)) == Content(own.at, Hand(t));
  }

  /** An effect that goes from a hand to a bin or to delivery, or makes a message. */
  lemma SamePlaces(own: State, s: State, e: Effect)
    requires Alike(own, s) && (e.Shift? ==> e.from.Hand? && !e.to.Queue? && Content(own.at, e.from) != [])
    ensures var (at, at') := (Pipeline.Perform(own.at, e), Pipeline.Perform(s.at, e));
            && (forall place: Place :: !place.Queue? ==> Content(at', place) == Content(at, place))
            && (forall q :: Content(at', Queue(q)) == Content(s.at, Queue(q)))
  {
  }

  lemma SameFields(c: Setup, own: State, s: State, step: Step)
    requires Alike(own, s) && TouchesNoQueue(step) && Enabled(c, own, step) && Enabled(c, s, step)
    requires EffectOf(c, s, step) == EffectOf(c, own, step) && NextPc(c, s, step) == NextPc(c, own, step)
    ensures var (own', s') := (Apply(c, own, step), Apply(c, s, step));
            s' == own'.(at := s'.at, pushed := s'.pushed) && s'.pushed == s.pushed
  {
    assert Content(s.at, Hand(Mover(c, step))) == Content(own.at, Hand(Mover(c, step)));
  }

  lemma LocalEffect(c: Setup, own: State, step: Step)
    requires TouchesNoQueue(step) && Enabled(c, own, step)
    ensures var e := EffectOf(c, own, step); e.Shift? ==> e.from.Hand? && !e.to.Queue? && Content(own.at, e.from) != []
  {
  }

  lemma LocalStands(p: Plant, sys: System, s: State, step: Step)
    requires StandsFor(p, sys, s) && TouchesNoQueue(step) && Enabled(p.c, sys.own, step)
    ensures Enabled(p.c, s, step) && StandsFor(p, Do(p, sys, Local(step)), Apply(p.c, s, step))
  {
    hide Enabled, Apply, EffectOf, NextPc, Pipeline.Perform;
    SameEnabled(p.c, sys.own, s, step);
    SameFields(p.c, sys.own, s, step);
    LocalEffect(p.c, sys.own, step);
    SamePlaces(sys.own, s, EffectOf(p.c, s, step));
    PlacesAfter(p.c, sys.own, step);
    PlacesAfter(p.c, s, step);
    var s', sys' := Apply(p.c, s, step), Do(p, sys, Local(step));
    forall q ensures RingOk(p, sys', s', q) {
      assert RingOk(p, sys, s, q);
      assert p.RingAt(sys', q) == p.RingAt(sys, q);
    }
  }

  /** A thread at a call does nothing else. */
  lemma NothingElse(c: Setup, own: State, step: Step, q: QueueId)
    requires TouchesNoQueue(step) && Enabled(c, own, step) && !step.Stop?
    ensures Pushing(c, own, q) ==> Mover(c, step) != Pusher(q)
    ensures Popping(c, own, q) ==> Mover(c, step) != Consumer(q)
  {
  }

  lemma OwnStays(c: Setup, own: State, step: Step, t: Thread)
    requires TouchesNoQueue(step) && Enabled(c, own, step) && (step.Stop? || Mover(c, step) != t)
    ensures var own' := Apply(c, own, step);
            PcOf(own', t) == PcOf(own, t) && Content(own'.at, Hand(t)) == Content(own.at, Hand(t))
  {
    if !step.Stop? {
      hide Enabled, Apply;
      OtherHands(c, own, step, t);
    }
  }

  lemma LocalAtCall(p: Plant, sys: System, step: Step, q: QueueId)
    requires AtCall(p, sys, q) && TouchesNoQueue(step) && Enabled(p.c, sys.own, step)
    ensures AtCall(p, Do(p, sys, Local(step)), q)
  {
    hide Enabled, Apply, Mover;
    if !step.Stop? {
      NothingElse(p.c, sys.own, step, q);
    }
    if step.Stop? || Mover(p.c, step) != Pusher(q) {
      OwnStays(p.c, sys.own, step, Pusher(q));
    }
    if step.Stop? || Mover(p.c, step) != Consumer(q) {
      OwnStays(p.c, sys.own, step, Consumer(q));
    }
  }

  lemma LocalStep(p: Plant, sys: System, s: State, step: Step)
    requires StandsFor(p, sys, s) && AtCalls(p, sys) && Can(p, sys, Local(step))
    ensures Enabled(p.c, s, step) && StandsFor(p, Do(p, sys, Local(step)), Apply(p.c, s, step))
    ensures AtCalls(p, Do(p, sys, Local(step)))
  {
    LocalStands(p, sys, s, step);
    hide Enabled, Apply, StandsFor;
    forall q ensures AtCall(p, Do(p, sys, Local(step)), q) {
      LocalAtCall(p, sys, step, q);
    }
  }

  // ----- A load or store -----

  /** A thread's call is about this queue and no other, and it is in one call at a time. */
  lemma OneCall(c: Setup, own: State, q: QueueId, r: QueueId)
    ensures Pusher(q) != Consumer(q)
    ensures Pushing(c, own, q) && Pushing(c, own, r) && Pusher(q) == Pusher(r) ==> q == r
    ensures Popping(c, own, q) && Popping(c, own, r) && Consumer(q) == Consumer(r) ==> q == r
    ensures Pushing(c, own, q) && Popping(c, own, r) ==> Pusher(q) != Consumer(r)
  {
  }

  /** Apart from thread `t`'s, program counters and hands are the same. */
  ghost predicate OnlyMoves(own: State, own': State, t: Thread) {
    forall u :: u != t ==> PcOf(own', u) == PcOf(own, u) && Content(own'.at, Hand(u)) == Content(own.at, Hand(u))
  }

  lemma OtherCalls(p: Plant, sys: System, sys': System, t: Thread, r: QueueId)
    requires AtCall(p, sys, r) && OnlyMoves(sys.own, sys'.own, t) && p.RingAt(sys', r) == p.RingAt(sys, r)
    requires t == Pusher(r) ==> p.RingAt(sys, r).pusher.PushIdle?
    requires t == Consumer(r) ==> p.RingAt(sys, r).popper.PopIdle?
    ensures AtCall(p, sys', r)
  {
  }

  /** What a queue's ring holds afterwards; the other queues' rings are the same. */
  lemma RingAfter(p: Plant, sys: System, q: QueueId, a: Machine.Step<Message>, now: int, r: QueueId)
    requires Can(p, sys, Access(q, a, now))
    ensures p.RingAt(Do(p, sys, Access(q, a, now)), r) ==
            if r == q then Machine.Apply(p.Size(), p.RingAt(sys, q), a) else p.RingAt(sys, r)
  {
  }

  /** A step that ends no call. */
  lemma SilentStep(p: Plant, sys: System, s: State, q: QueueId, a: Machine.Step<Message>, now: int)
    requires StandsFor(p, sys, s) && AtCalls(p, sys) && Can(p, sys, Access(q, a, now))
    requires var ring' := Machine.Apply(p.Size(), p.RingAt(sys, q), a);
             match a
             case StoreTail => false
             case StoreHead => false
             case LoadHead(_) => !ring'.pusher.PushIdle?
             case LoadTail(_) => !ring'.popper.PopIdle?
             case _ => true
    ensures StandsFor(p, Do(p, sys, Access(q, a, now)), s) && AtCalls(p, Do(p, sys, Access(q, a, now)))
  {
    var sys' := Do(p, sys, Access(q, a, now));
    assert RingOk(p, sys, s, q) && AtCall(p, sys, q);
    Machine.StepInv(p.Size(), p.RingAt(sys, q), a);
    Machine.StepKeepsTheGuards(p.Size(), p.RingAt(sys, q), a);
    assert sys'.own == sys.own;
    forall r ensures RingOk(p, sys', s, r) && AtCall(p, sys', r) {
      assert RingOk(p, sys, s, r) && AtCall(p, sys, r);
      RingAfter(p, sys, q, a, now, r);
    }
  }

  ghost predicate OthersSame(s: State, s': State, q: QueueId) {
    forall r :: r != q ==> Waiting(s', r) == Waiting(s, r) && PushedTo(s', r) == PushedTo(s, r)
  }

  lemma NowStandsFor(p: Plant, sys: System, s: State, q: QueueId, a: Machine.Step<Message>, now: int, s': State)
    requires StandsFor(p, sys, s) && Can(p, sys, Access(q, a, now))
    requires var sys' := Do(p, sys, Access(q, a, now));
             Alike(sys'.own, s') && RingOk(p, sys', s', q)
    requires OthersSame(s, s', q)
    ensures StandsFor(p, Do(p, sys, Access(q, a, now)), s')
  {
    forall r ensures RingOk(p, Do(p, sys, Access(q, a, now)), s', r) {
      assert RingOk(p, sys, s, r);
      RingAfter(p, sys, q, a, now, r);
    }
  }

  /** A call has ended, and its thread has moved on. */
  lemma NowAtCalls(p: Plant, sys: System, q: QueueId, a: Machine.Step<Message>, now: int, t: Thread)
    requires AtCalls(p, sys) && Can(p, sys, Access(q, a, now))
    requires OnlyMoves(sys.own, Do(p, sys, Access(q, a, now)).own, t)
    requires var (ring, ring') := (p.RingAt(sys, q), Machine.Apply(p.Size(), p.RingAt(sys, q), a));
             || (t == Pusher(q) && !ring.pusher.PushIdle? && ring'.pusher.PushIdle? && ring'.popper == ring.popper)
             || (t == Consumer(q) && !ring.popper.PopIdle? && ring'.popper.PopIdle? && ring'.pusher == ring.pusher)
    ensures AtCalls(p, Do(p, sys, Access(q, a, now)))
  {
    var sys' := Do(p, sys, Access(q, a, now));
    assert AtCall(p, sys, q);
    RingAfter(p, sys, q, a, now, q);
    OneCall(p.c, sys.own, q, q);
    forall r ensures AtCall(p, sys', r) {
      assert AtCall(p, sys, r);
      if r != q {
        RingAfter(p, sys, q, a, now, r);
        OneCall(p.c, sys.own, q, r);
        OneCall(p.c, sys.own, r, q);
        OtherCalls(p, sys, sys', t, r);
      }
    }
  }

  /** The thread that is amid a push, seen in the pipeline's state. */
  lemma PusherIsSending(p: Plant, sys: System, s: State, q: QueueId)
    requires StandsFor(p, sys, s) && AtCall(p, sys, q) && HandsOk(p.c, s) && !p.RingAt(sys, q).pusher.PushIdle?
    ensures var t := Pusher(q);
            && CanSend(p.c, s, t) && Held(s, t).value == p.RingAt(sys, q).pusher.item
            && Target(p.c, t, Held(s, t).value) == Some(q)
            && Content(s.at, Hand(t)) == [p.RingAt(sys, q).pusher.item]
            && PcOf(s, t) == PcOf(sys.own, t) && PcOf(s, t).tries < Limit(t)
  {
    assert Content(s.at, Hand(Pusher(q))) == Content(sys.own.at, Hand(Pusher(q)));
    assert |Content(s.at, Hand(Pusher(q)))| == if PcOf(s, Pusher(q)).Sending? then 1 else 0;
  }

  lemma AfterPushAlike(c: Setup, own: State, s: State, q: QueueId, m: Message, seen: nat)
    requires Alike(own, s) && CanSend(c, s, Pusher(q)) && Content(s.at, Hand(Pusher(q))) == [m]
    requires Target(c, Pusher(q), m) == Some(q) && MayPush(c.capacity, PushedTo(s, q), PoppedFrom(s, q), seen)
    ensures Enabled(c, s, Push(Pusher(q), seen))
    ensures var (own', s') := (AfterPush(own, Pusher(q)), Apply(c, s, Push(Pusher(q), seen)));
            && Alike(own', s') && OnlyMoves(own, own', Pusher(q)) && OthersSame(s, s', q)
            && Waiting(s', q) == Waiting(s, q) + [m] && PushedTo(s', q) == PushedTo(s, q) + 1
  {
  }

  lemma RefuseIs(c: Setup, s: State, q: QueueId, m: Message, seen: nat)
    requires CanSend(c, s, Pusher(q)) && Content(s.at, Hand(Pusher(q))) == [m]
    requires Target(c, Pusher(q), m) == Some(q) && MayRefuse(c.capacity, PushedTo(s, q), PoppedFrom(s, q), seen)
    ensures Enabled(c, s, Refuse(Pusher(q), seen))
    ensures var (t, bin) := (Pusher(q), Dropped(Pusher(q), RetriesExhausted));
            var (i, tries) := (PcOf(s, t).i, PcOf(s, t).tries + 1);
            Apply(c, s, Refuse(t, seen)) ==
            if tries < Limit(t) then s.(pc := s.pc[t := Sending(i, tries)])
            else s.(at := s.at[Hand(t) := []][bin := Content(s.at, bin) + [m]],
                    pc := s.pc[t := if t.Router1? || t.Router2? then Counting(i, false) else Resume(t, i)])
  {
    assert [m][1..] == [];
  }

  /** The same message goes to the same bin. */
  lemma SameBin(own: State, s: State, t: Thread, bin: Place, m: Message)
    requires Alike(own, s) && Content(s.at, Hand(t)) == [m] && bin.Dropped?
    ensures var at := own.at[Hand(t) := []][bin := Content(own.at, bin) + Content(own.at, Hand(t))];
            var at' := s.at[Hand(t) := []][bin := Content(s.at, bin) + [m]];
            && (forall place: Place :: !place.Queue? ==> Content(at', place) == Content(at, place))
            && (forall r :: Content(at', Queue(r)) == Content(s.at, Queue(r)))
            && (forall u :: u != t ==> Content(at, Hand(u)) == Content(own.at, Hand(u)))
  {
    assert Content(own.at, Hand(t)) == [m];
  }

  lemma GivenUpAlike(own: State, s: State, t: Thread, m: Message, pc: Pc)
    requires Alike(own, s) && Content(s.at, Hand(t)) == [m]
    ensures var bin := Dropped(t, RetriesExhausted);
            var own' := own.(at := own.at[Hand(t) := []][bin := Content(own.at, bin) + Content(own.at, Hand(t))],
                             pc := own.pc[t := pc]);
            var s' := s.(at := s.at[Hand(t) := []][bin := Content(s.at, bin) + [m]], pc := s.pc[t := pc]);
            && Alike(own', s') && OnlyMoves(own, own', t)
            && forall r :: Waiting(s', r) == Waiting(s, r) && PushedTo(s', r) == PushedTo(s, r)
  {
    SameBin(own, s, t, Dropped(t, RetriesExhausted), m);
    hide Content;
  }

  lemma PcAlike(own: State, s: State, t: Thread, pc: Pc)
    requires Alike(own, s)
    ensures PcOf(own, t) == PcOf(s, t)
    ensures var (own', s') := (own.(pc := own.pc[t := pc]), s.(pc := s.pc[t := pc]));
            && Alike(own', s') && OnlyMoves(own, own', t)
            && forall r :: Waiting(s', r) == Waiting(s, r) && PushedTo(s', r) == PushedTo(s, r)
  {
    hide Content;
  }

  lemma AfterRefusalAlike(c: Setup, own: State, s: State, q: QueueId, m: Message, seen: nat)
    requires Alike(own, s) && CanSend(c, s, Pusher(q)) && Content(s.at, Hand(Pusher(q))) == [m]
    requires Target(c, Pusher(q), m) == Some(q) && MayRefuse(c.capacity, PushedTo(s, q), PoppedFrom(s, q), seen)
    ensures Enabled(c, s, Refuse(Pusher(q), seen))
    ensures var (own', s') := (AfterRefusal(own, Pusher(q)), Apply(c, s, Refuse(Pusher(q), seen)));
            && Alike(own', s') && OnlyMoves(own, own', Pusher(q)) && OthersSame(s, s', q)
            && Waiting(s', q) == Waiting(s, q) && PushedTo(s', q) == PushedTo(s, q)
  {
    hide Enabled, Apply, Target, Content, MayRefuse, Alike, OnlyMoves;
    var t := Pusher(q);
    RefuseIs(c, s, q, m, seen);
    PcAlike(own, s, t, Sending(PcOf(s, t).i, PcOf(s, t).tries + 1));
    if PcOf(s, t).tries + 1 >= Limit(t) {
      var i := PcOf(s, t).i;
      GivenUpAlike(own, s, t, m, if t.Router1? || t.Router2? then Counting(i, false) else Resume(t, i));
    }
  }

  lemma AfterMissAlike(c: Setup, own: State, s: State, q: QueueId, seen: nat)
    requires Alike(own, s) && Popping(c, own, q) && MayMiss(PushedTo(s, q), PoppedFrom(s, q), seen)
    ensures Enabled(c, s, Miss(Consumer(q), seen))
    ensures var (own', s') := (AfterMiss(own, Consumer(q)), Apply(c, s, Miss(Consumer(q), seen)));
            && Alike(own', s') && OnlyMoves(own, own', Consumer(q)) && OthersSame(s, s', q)
            && Waiting(s', q) == Waiting(s, q) && PushedTo(s', q) == PushedTo(s, q)
  {
  }

  lemma TakeIs(c: Setup, s: State, q: QueueId, seen: nat, now: int)
    requires c.Runs(Consumer(q)) && HasInput(c, q) && PcOf(s, Consumer(q)) == Scanning(InputIndex(q))
    requires MayTake(PushedTo(s, q), PoppedFrom(s, q), seen)
    ensures Enabled(c, s, Take(Consumer(q), seen, now))
    ensures var (t, m) := (Consumer(q), Stamp(Consumer(q), Waiting(s, q)[0], now));
            Apply(c, s, Take(t, seen, now)) ==
            s.(at := s.at[Queue(q) := Waiting(s, q)[1..]][Hand(t) := Content(s.at, Hand(t)) + [m]],
               pc := s.pc[t := Sending(InputIndex(q), 0)])
  {
    assert Input(Consumer(q), InputIndex(q)) == q;
  }

  lemma AfterPopAlike(c: Setup, own: State, s: State, q: QueueId, seen: nat, now: int)
    requires Alike(own, s) && Popping(c, own, q) && MayTake(PushedTo(s, q), PoppedFrom(s, q), seen)
    ensures Enabled(c, s, Take(Consumer(q), seen, now))
    ensures var own' := AfterPop(own, Consumer(q), Stamp(Consumer(q), Waiting(s, q)[0], now));
            var s' := Apply(c, s, Take(Consumer(q), seen, now));
            && Alike(own', s') && OnlyMoves(own, own', Consumer(q)) && OthersSame(s, s', q)
            && Waiting(s', q) == Waiting(s, q)[1..] && PushedTo(s', q) == PushedTo(s, q)
  {
    hide Enabled, Apply, Stamp;
    TakeIs(c, s, q, seen, now);
  }

  /** The ring at which something happens, as the pipeline sees it. */
  lemma RingStep(p: Plant, sys: System, s: State, q: QueueId, a: Machine.Step<Message>, now: int)
    requires StandsFor(p, sys, s) && Can(p, sys, Access(q, a, now))
    ensures Machine.Inv(p.Size(), p.RingAt(sys, q)) && Machine.Enabled(p.Size(), p.RingAt(sys, q), a)
    ensures var (ring, ring') := (p.RingAt(sys, q), Machine.Apply(p.Size(), p.RingAt(sys, q), a));
            && Machine.Inv(p.Size(), ring') && |ring.popped| <= |ring.pushed|
            && PushedTo(s, q) == |ring.pushed| && PoppedFrom(s, q) == |ring.popped|
            && Waiting(s, q) == ring.pushed[|ring.popped|..]
            && p.RingAt(Do(p, sys, Access(q, a, now)), q) == ring'
  {
    assert RingOk(p, sys, s, q);
    Machine.StepInv(p.Size(), p.RingAt(sys, q), a);
    hide Machine.Enabled, Machine.Apply, Returned;
  }

  lemma PushReturns(p: Plant, sys: System, s: State, q: QueueId, now: int) returns (step: Step, s': State)
    requires StandsFor(p, sys, s) && AtCalls(p, sys) && HandsOk(p.c, s)
    requires Can(p, sys, Access(q, Machine.StoreTail, now))
    ensures step == Push(Pusher(q), p.RingAt(sys, q).headView) && Enabled(p.c, s, step) && s' == Apply(p.c, s, step)
    ensures var sys' := Do(p, sys, Access(q, Machine.StoreTail, now)); StandsFor(p, sys', s') && AtCalls(p, sys')
  {
    hide Enabled, Apply, AfterPush, Alike, OnlyMoves, OthersSame, Machine.Inv, CanSend;
    var ring := p.RingAt(sys, q);
    assert AtCall(p, sys, q);
    PusherIsSending(p, sys, s, q);
    RingStep(p, sys, s, q, Machine.StoreTail, now);
    Machine.StepKeepsTheGuards(p.Size(), ring, Machine.StoreTail);
    AfterPushAlike(p.c, sys.own, s, q, ring.pusher.item, ring.headView);
    step := Push(Pusher(q), ring.headView);
    s' := Apply(p.c, s, step);
    NowStandsFor(p, sys, s, q, Machine.StoreTail, now, s');
    NowAtCalls(p, sys, q, Machine.StoreTail, now, Pusher(q));
  }

  lemma RefusalReturns(p: Plant, sys: System, s: State, q: QueueId, seen: nat, now: int)
    returns (step: Step, s': State)
    requires StandsFor(p, sys, s) && AtCalls(p, sys) && HandsOk(p.c, s)
    requires var a := Machine.LoadHead(seen);
             Can(p, sys, Access(q, a, now)) && Machine.Apply(p.Size(), p.RingAt(sys, q), a).pusher.PushIdle?
    ensures step == Refuse(Pusher(q), seen) && Enabled(p.c, s, step) && s' == Apply(p.c, s, step)
    ensures var sys' := Do(p, sys, Access(q, Machine.LoadHead(seen), now)); StandsFor(p, sys', s') && AtCalls(p, sys')
  {
    hide Enabled, Apply, AfterRefusal, Alike, OnlyMoves, OthersSame, Machine.Inv, CanSend;
    var ring, a := p.RingAt(sys, q), Machine.LoadHead(seen);
    assert AtCall(p, sys, q);
    PusherIsSending(p, sys, s, q);
    RingStep(p, sys, s, q, a, now);
    Machine.StepKeepsTheGuards(p.Size(), ring, a);
    AfterRefusalAlike(p.c, sys.own, s, q, ring.pusher.item, seen);
    step := Refuse(Pusher(q), seen);
    s' := Apply(p.c, s, step);
    NowStandsFor(p, sys, s, q, a, now, s');
    NowAtCalls(p, sys, q, a, now, Pusher(q));
  }

  lemma MissReturns(p: Plant, sys: System, s: State, q: QueueId, seen: nat, now: int)
    returns (step: Step, s': State)
    requires StandsFor(p, sys, s) && AtCalls(p, sys)
    requires var a := Machine.LoadTail(seen);
             Can(p, sys, Access(q, a, now)) && Machine.Apply(p.Size(), p.RingAt(sys, q), a).popper.PopIdle?
    ensures step == Miss(Consumer(q), seen) && Enabled(p.c, s, step) && s' == Apply(p.c, s, step)
    ensures var sys' := Do(p, sys, Access(q, Machine.LoadTail(seen), now)); StandsFor(p, sys', s') && AtCalls(p, sys')
  {
    hide Enabled, Apply, AfterMiss, Alike, OnlyMoves, OthersSame, Machine.Inv, Popping;
    var ring, a := p.RingAt(sys, q), Machine.LoadTail(seen);
    assert AtCall(p, sys, q);
    RingStep(p, sys, s, q, a, now);
    Machine.StepKeepsTheGuards(p.Size(), ring, a);
    AfterMissAlike(p.c, sys.own, s, q, seen);
    step := Miss(Consumer(q), seen);
    s' := Apply(p.c, s, step);
    NowStandsFor(p, sys, s, q, a, now, s');
    NowAtCalls(p, sys, q, a, now, Consumer(q));
  }

  lemma PopReturns(p: Plant, sys: System, s: State, q: QueueId, now: int) returns (step: Step, s': State)
    requires StandsFor(p, sys, s) && AtCalls(p, sys)
    requires Can(p, sys, Access(q, Machine.StoreHead, now))
    ensures step == Take(Consumer(q), p.RingAt(sys, q).tailView, now)
    ensures Enabled(p.c, s, step) && s' == Apply(p.c, s, step)
    ensures var sys' := Do(p, sys, Access(q, Machine.StoreHead, now)); StandsFor(p, sys', s') && AtCalls(p, sys')
  {
    hide Enabled, Apply, AfterPop, Alike, OnlyMoves, OthersSame, Machine.Inv, Popping, Stamp;
    var ring := p.RingAt(sys, q);
    assert AtCall(p, sys, q);
    RingStep(p, sys, s, q, Machine.StoreHead, now);
    Machine.StepKeepsTheGuards(p.Size(), ring, Machine.StoreHead);
    AfterPopAlike(p.c, sys.own, s, q, ring.tailView, now);
    step := Take(Consumer(q), ring.tailView, now);
    s' := Apply(p.c, s, step);
    NowStandsFor(p, sys, s, q, Machine.StoreHead, now, s');
    NowAtCalls(p, sys, q, Machine.StoreHead, now, Consumer(q));
  }

  // ----- Every run -----

  /** Each move is one step of the pipeline or goes unnoticed there. */
  lemma MoveIsAStep(p: Plant, sys: System, s: State, move: Move) returns (steps: seq<Step>, s': State)
    requires StandsFor(p, sys, s) && AtCalls(p, sys) && Shape(p.c, s) && Can(p, sys, move)
    ensures |steps| <= 1 && Execute(p.c, s, steps) == Some(s')
    ensures StandsFor(p, Do(p, sys, move), s') && AtCalls(p, Do(p, sys, move))
  {
    var step;
    if move.Local? {
      LocalStep(p, sys, s, move.step);
      step, s' := move.step, Apply(p.c, s, move.step);
    } else {
      var (q, a, now) := (move.q, move.access, move.now);
      var ring' := Machine.Apply(p.Size(), p.RingAt(sys, q), a);
      if a.StoreTail? {
        step, s' := PushReturns(p, sys, s, q, now);
      } else if a.StoreHead? {
        step, s' := PopReturns(p, sys, s, q, now);
      } else if a.LoadHead? && ring'.pusher.PushIdle? {
        step, s' := RefusalReturns(p, sys, s, q, a.seen, now);
      } else if a.LoadTail? && ring'.popper.PopIdle? {
        step, s' := MissReturns(p, sys, s, q, a.seen, now);
      } else {
        SilentStep(p, sys, s, q, a, now);
        return [], s;
      }
    }
    ExecuteFirst(p.c, s, step, []);
    steps := [step] + [];
  }

  lemma {:induction false} RunIsARun(p: Plant, sys: System, s: State, moves: seq<Move>, sys': System)
    returns (steps: seq<Step>, s': State)
    requires StandsFor(p, sys, s) && AtCalls(p, sys) && Shape(p.c, s) && Operate(p, sys, moves) == Some(sys')
    ensures |steps| <= |moves| && Execute(p.c, s, steps) == Some(s') && StandsFor(p, sys', s')
    decreases |moves|
  {
    if moves == [] {
      steps, s' := [], s;
    } else {
      var first, s1 := MoveIsAStep(p, sys, s, moves[0]);
      RunShape(p.c, s, first, s1);
      var rest;
      rest, s' := RunIsARun(p, Do(p, sys, moves[0]), s1, moves[1..], sys');
      ExecuteAppend(p.c, s, first, rest);
      steps := first + rest;
    }
  }

  lemma StartStandsFor(p: Plant)
    requires Machine.ValidSize(p.Size())
    ensures StandsFor(p, START, INITIAL) && AtCalls(p, START)
  {
    Machine.InitialInv(p.Size(), p.blank);
  }

  /**
   Whatever the loads and stores of the queues see and however they are interleaved, the system is always in a state
   that some run of the pipeline leads to.
   */
  lemma RingsRefine(p: Plant, moves: seq<Move>, sys: System)
    requires Machine.ValidSize(p.Size()) && Operate(p, START, moves) == Some(sys)
    ensures exists s :: Reachable(p.c, s) && StandsFor(p, sys, s)
  {
    StartStandsFor(p);
    InitialShape(p.c);
    var steps, s := RunIsARun(p, START, INITIAL, moves, sys);
  }

  /**
   So what holds of the pipeline holds of it. For one, each key is delivered in the order it was made, and only what its
   producer made, to the strategy it is routed to.
   */
  lemma RingsDeliverInOrder(p: Plant, moves: seq<Move>, sys: System, strategy: nat)
    requires Machine.ValidSize(p.Size()) && Operate(p, START, moves) == Some(sys)
    ensures var delivered := Content(sys.own.at, Delivered(strategy));
            && (forall k :: Ascending(OfKey(delivered, k)))
            && forall i :: 0 <= i < |delivered| ==> DeliveredRight(p.c, sys.own, strategy, delivered[i])
  {
    hide Operate;
    RingsRefine(p, moves, sys);
    var s :| Reachable(p.c, s) && StandsFor(p, sys, s);
    var delivered := Content(s.at, Delivered(strategy));
    assert delivered == Content(sys.own.at, Delivered(strategy)) && s.generated == sys.own.generated;
    forall k ensures Ascending(OfKey(delivered, k)) {
      DeliveredInOrder(p.c, s, strategy, k);
    }
    forall i | 0 <= i < |delivered| ensures DeliveredRight(p.c, sys.own, strategy, delivered[i]) {
      DeliveredAsMade(p.c, s, strategy, i);
    }
  }

  ghost predicate DeliveredRight(c: Setup, own: State, strategy: nat, m: Message) {
    && strategy == c.config.StrategyFor(m.msgType)
    && 1 <= m.sequenceNumber <= |GeneratedBy(own, m.producerId)|
    && var made := GeneratedBy(own, m.producerId)[m.sequenceNumber - 1];
       m == Stamped(made, c.config.ProcessorFor(made.msgType), m.processingTimestamp)
  }
}
