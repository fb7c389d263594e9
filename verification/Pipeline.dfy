/**
 The running system as a transition system: producers, the stage 1 router, processors, the stage 2 router and
 strategies, joined by bounded queues, and the stop sequence of `main`. Every step is one thread's, in any
 order; a queue operation is one step, as the ring machine justifies, and may use a stale view of the other
 side's index.
 */
module Pipeline {
  import opened MachineWords
  import opened Wrappers
  import opened Messages
  import opened Config
  import opened QueueGuards
  import opened StrategyMonitor

  datatype Thread = Producer(p: nat) | Router1 | Processor(r: nat) | Router2 | Strategy(s: nat)

  datatype QueueId = FromProducer(p: nat) | ToProcessor(r: nat) | FromProcessor(r: nat) | ToStrategy(s: nat)

  datatype Reason = NoRoute | RetriesExhausted

  /** Where a message can be: in a thread's local variable, in a queue, delivered, or dropped by a thread. */
  datatype Place = Hand(t: Thread) | Queue(q: QueueId) | Delivered(s: nat) | Dropped(t: Thread, why: Reason)

  /**
   Where a thread is in its loop. `i` is the index of the input queue being scanned. `Checking`: about to test
   the running flag. `Sending`: holds a message and has failed to push it `tries` times. `Counting`: about to
   increment the counter for a message sent or lost.
   */
  datatype Pc =
    | Checking
    | Scanning(i: nat)
    | Sending(i: nat, tries: nat)
    | Counting(i: nat, sent: bool)
    | Exited

  datatype Counter = Counter(t: Thread, sent: bool)

  datatype State = State(
    at: map<Place, seq<Message>>,
    pc: map<Thread, Pc>,
    stopped: set<Thread>,
    pushed: map<QueueId, nat>,
    generated: map<nat, seq<Message>>,
    due: map<nat, int>,
    counts: map<Counter, nat>,
    tallies: map<nat, Tally>)

  /** The configuration, and how many messages a queue can hold (one less than its size). */
  datatype Setup = Setup(config: SystemConfig, capacity: nat) {
    function Producers(): nat { if config.producers > 0 then config.producers else 0 }
    function Processors(): nat { if config.processors > 0 then config.processors else 0 }
    function Strategies(): nat { if config.strategies > 0 then config.strategies else 0 }

    /** Nanoseconds between two messages of one producer. */
    function Interval(): nat { if config.messagesPerSec > 0 then 1000000000 / config.messagesPerSec else 0 }

    predicate Runs(t: Thread) {
      match t
      case Producer(p) => p < Producers()
      case Processor(r) => r < Processors()
      case Strategy(s) => s < Strategies()
      case _ => true
    }
  }

  function Get<K, V>(m: map<K, V>, k: K, default: V): V {
    if k in m then m[k] else default
  }

  function Content(at: map<Place, seq<Message>>, place: Place): seq<Message> {
    Get(at, place, [])
  }

  function PcOf(s: State, t: Thread): Pc {
    Get(s.pc, t, Checking)
  }

  function Waiting(s: State, q: QueueId): seq<Message> {
    Content(s.at, Queue(q))
  }

  function PushedTo(s: State, q: QueueId): nat {
    Get(s.pushed, q, 0)
  }

  function PoppedFrom(s: State, q: QueueId): int {
    PushedTo(s, q) - |Waiting(s, q)|
  }

  function GeneratedBy(s: State, p: nat): seq<Message> {
    Get(s.generated, p, [])
  }

  // ----- Wiring -----

  /** The input queues a thread scans, in order. */
  function InputCount(c: Setup, t: Thread): nat {
    match t
    case Producer(_) => 0
    case Router1 => c.Producers()
    case Router2 => c.Processors()
    case _ => 1
  }

  function Input(t: Thread, i: nat): QueueId {
    match t
    case Producer(p) => FromProducer(p)
    case Router1 => FromProducer(i)
    case Processor(r) => ToProcessor(r)
    case Router2 => FromProcessor(i)
    case Strategy(s) => ToStrategy(s)
  }

  /** The queue a thread pushes a message to; none if the route leads nowhere (or the thread is a strategy). */
  function Target(c: Setup, t: Thread, m: Message): Option<QueueId> {
    match t
    case Producer(p) => Some(FromProducer(p))
    case Router1 =>
      var r := c.config.ProcessorFor(m.msgType);
      if r < c.Processors() then Some(ToProcessor(r)) else None
    case Processor(r) => Some(FromProcessor(r))
    case Router2 =>
      var k := c.config.StrategyFor(m.msgType);
      if k < c.Strategies() then Some(ToStrategy(k)) else None
    case Strategy(_) => None
  }

  /** How often a push is tried before the message is dropped. */
  function Limit(t: Thread): nat {
    if t.Producer? then 100 else 1000
  }

  /** The threads in the order `main` stops and joins them. */
  function ThreadCount(c: Setup): nat {
    c.Producers() + 1 + c.Processors() + 1 + c.Strategies()
  }

  function StopOrder(c: Setup, i: nat): Thread {
    if i < c.Producers() then Producer(i)
    else if i == c.Producers() then Router1
    else if i < c.Producers() + 1 + c.Processors() then Processor(i - c.Producers() - 1)
    else if i == c.Producers() + 1 + c.Processors() then Router2
    else Strategy(i - c.Producers() - 2 - c.Processors())
  }

  // ----- Steps -----

  datatype Step =
    | Check(t: Thread)                          // evaluate the running flag
    | Generate(p: nat, msgType: nat, now: int)  // the time has come: make a message
    | Take(t: Thread, seen: nat, now: int)      // try_pop succeeds, the tail seen at position `seen`
    | Miss(t: Thread, seen: nat)                // try_pop finds nothing
    | Wrap(t: Thread, now: int)                 // all inputs scanned (for a producer: the time has not come)
    | Reject(t: Thread)                         // the route is out of range
    | Push(t: Thread, seen: nat)                // try_push succeeds, the head seen at position `seen`
    | Refuse(t: Thread, seen: nat)              // try_push is refused
    | Count(t: Thread)                          // increment a counter
    | Deliver(s: nat)                           // Strategy::process_message
    | Stop(i: nat)                              // main: running_ = false for the next thread in order

  /** The message in a thread's hand. */
  function Held(s: State, t: Thread): Option<Message> {
    var hand := Content(s.at, Hand(t));
    if hand == [] then None else Some(hand[0])
  }

  predicate Enabled(c: Setup, s: State, step: Step) {
    match step
    case Check(t) => c.Runs(t) && PcOf(s, t).Checking?
    case Generate(p, msgType, now) =>
      c.Runs(Producer(p)) && PcOf(s, Producer(p)).Scanning? && msgType <= 3 && Get(s.due, p, 0) <= now &&
      |GeneratedBy(s, p)| + 2 < TWO_TO_THE_64
    case Take(t, seen, _) =>
      c.Runs(t) && PcOf(s, t).Scanning? && PcOf(s, t).i < InputCount(c, t) &&
      var q := Input(t, PcOf(s, t).i);
      MayTake(PushedTo(s, q), PoppedFrom(s, q), seen)
    case Miss(t, seen) =>
      c.Runs(t) && PcOf(s, t).Scanning? && PcOf(s, t).i < InputCount(c, t) &&
      var q := Input(t, PcOf(s, t).i);
      MayMiss(PushedTo(s, q), PoppedFrom(s, q), seen)
    case Wrap(t, now) =>
      c.Runs(t) && PcOf(s, t).Scanning? && PcOf(s, t).i >= InputCount(c, t) &&
      (t.Producer? ==> now < Get(s.due, t.p, 0))
    case Reject(t) =>
      c.Runs(t) && !t.Strategy? && PcOf(s, t).Sending? && Held(s, t).Some? && Target(c, t, Held(s, t).value).None?
    case Push(t, seen) =>
      CanSend(c, s, t) &&
      var q := Target(c, t, Held(s, t).value).value;
      MayPush(c.capacity, PushedTo(s, q), PoppedFrom(s, q), seen)
    case Refuse(t, seen) =>
      CanSend(c, s, t) &&
      var q := Target(c, t, Held(s, t).value).value;
      MayRefuse(c.capacity, PushedTo(s, q), PoppedFrom(s, q), seen)
    case Count(t) => c.Runs(t) && PcOf(s, t).Counting?
    case Deliver(k) => c.Runs(Strategy(k)) && PcOf(s, Strategy(k)).Sending? && Held(s, Strategy(k)).Some?
    case Stop(i) => i < ThreadCount(c) && forall j :: 0 <= j < i ==> PcOf(s, StopOrder(c, j)).Exited?
  }

  predicate CanSend(c: Setup, s: State, t: Thread) {
    && c.Runs(t) && PcOf(s, t).Sending? && Held(s, t).Some?
    && Target(c, t, Held(s, t).value).Some?
  }

  /** What a step does to the messages: nothing, a new message in its producer's hand, or one message moved on. */
  datatype Effect = Stay | Arrive(m: Message) | Shift(from: Place, to: Place, m: Message)

  /** A processor stamps the message it takes. */
  function Stamp(t: Thread, m: Message, now: int): Message {
    if t.Processor? then Stamped(m, t.r, now) else m
  }

  function EffectOf(c: Setup, s: State, step: Step): Effect
    requires Enabled(c, s, step)
  {
    match step
    case Generate(p, msgType, now) => Arrive(Fresh(msgType, p, |GeneratedBy(s, p)| + 1, now))
    case Take(t, _, now) =>
      var q := Input(t, PcOf(s, t).i);
      Shift(Queue(q), Hand(t), Stamp(t, Waiting(s, q)[0], now))
    case Reject(t) => Shift(Hand(t), Dropped(t, NoRoute), Held(s, t).value)
    case Push(t, _) =>
      var m := Held(s, t).value;
      Shift(Hand(t), Queue(Target(c, t, m).value), m)
    case Refuse(t, _) =>
      if PcOf(s, t).tries + 1 < Limit(t) then Stay
      else Shift(Hand(t), Dropped(t, RetriesExhausted), Held(s, t).value)
    case Deliver(k) => Shift(Hand(Strategy(k)), Delivered(k), Held(s, Strategy(k)).value)
    case _ => Stay
  }

  function Perform(at: map<Place, seq<Message>>, e: Effect): map<Place, seq<Message>>
    requires e.Shift? ==> Content(at, e.from) != []
  {
    match e
    case Stay => at
    case Arrive(m) => at[Hand(Producer(m.producerId)) := Content(at, Hand(Producer(m.producerId))) + [m]]
    case Shift(from, to, m) => at[from := Content(at, from)[1..]][to := Content(at, to) + [m]]
  }

  /** Where a thread goes on after a message is dealt with: the same input queue, or for a producer its loop test. */
  function Resume(t: Thread, i: nat): Pc {
    if t.Producer? then Checking else Scanning(i)
  }

  function Mover(c: Setup, step: Step): Thread {
    match step
    case Generate(p, _, _) => Producer(p)
    case Deliver(k) => Strategy(k)
    case Stop(i) => StopOrder(c, i)
    case _ => step.t
  }

  /** The program counter of the thread that takes the step, afterwards. */
  function NextPc(c: Setup, s: State, step: Step): Pc
    requires Enabled(c, s, step)
  {
    var t := Mover(c, step);
    var pc := PcOf(s, t);
    match step
    case Check(_) => if t in s.stopped then Exited else Scanning(0)
    case Generate(_, _, _) => Sending(0, 0)
    case Take(_, _, _) => Sending(pc.i, 0)
    case Miss(_, _) => Scanning(pc.i + 1)
    case Wrap(_, _) => Checking
    case Reject(_) => Counting(pc.i, false)
    case Push(_, _) => Counting(pc.i, true)
    case Refuse(_, _) =>
      if pc.tries + 1 < Limit(t) then Sending(pc.i, pc.tries + 1)
      else if t.Router1? || t.Router2? then Counting(pc.i, false)
      else Resume(t, pc.i)
    case Count(_) => Resume(t, pc.i)
    case Deliver(_) => Scanning(pc.i)
    case Stop(_) => pc
  }

  function Apply(c: Setup, s: State, step: Step): State
    requires Enabled(c, s, step)
  {
    var t := Mover(c, step);
    var s' := s.(at := Perform(s.at, EffectOf(c, s, step)), pc := s.pc[t := NextPc(c, s, step)]);
    match step
    case Generate(p, _, now) =>
      s'.(generated := s.generated[p := GeneratedBy(s, p) + [EffectOf(c, s, step).m]],
          due := s.due[p := now + c.Interval()])
    case Push(_, _) =>
      var q := Target(c, t, Held(s, t).value).value;
      s'.(pushed := s.pushed[q := PushedTo(s, q) + 1])
    case Count(_) =>
      var k := Counter(t, PcOf(s, t).sent);
      s'.(counts := s.counts[k := Get(s.counts, k, 0) + 1])
    case Deliver(k) =>
      s'.(tallies := s.tallies[k := Process(Get(s.tallies, k, Tally(map[], 0, 0)), Held(s, t).value)])
    case Stop(_) => s'.(stopped := s.stopped + {t})
    case _ => s'
  }

  const INITIAL: State := State(map[], map[], {}, map[], map[], map[], map[], map[])

  /** The state the steps lead to from `s`, if each is enabled where it is taken. */
  function Execute(c: Setup, s: State, steps: seq<Step>): Option<State>
    decreases |steps|
  {
    if steps == [] then Some(s)
    else if Enabled(c, s, steps[0]) then Execute(c, Apply(c, s, steps[0]), steps[1..])
    else None
  }

  /** The states some run of the system leads to. */
  ghost predicate Reachable(c: Setup, s: State) {
    exists steps :: Execute(c, INITIAL, steps) == Some(s)
  }
}
