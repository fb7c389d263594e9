/** How many refused pushes in a row cost a message. */
module PipelineRetries {
  import opened Wrappers
  import opened Pipeline
  import opened PipelineInvariant
  import opened PipelineReport

  /** The pushes of a thread that were refused since it last did anything else. */
  function RefusedInARow(c: Setup, steps: seq<Step>, t: Thread): nat {
    if steps == [] then 0
    else
      var before, last := steps[..|steps| - 1], steps[|steps| - 1];
      if last.Stop? || Mover(c, last) != t then RefusedInARow(c, before, t)
      else if last.Refuse? then RefusedInARow(c, before, t) + 1
      else 0
  }

  lemma RefusedLast(c: Setup, steps: seq<Step>, step: Step, t: Thread)
    ensures RefusedInARow(c, steps + [step], t) ==
            if step.Stop? || Mover(c, step) != t then RefusedInARow(c, steps, t)
            else if step.Refuse? then RefusedInARow(c, steps, t) + 1
            else 0
  {
    assert (steps + [step])[..|steps|] == steps;
  }

  lemma ExecuteLast(c: Setup, steps: seq<Step>, s: State)
    requires steps != [] && Execute(c, INITIAL, steps) == Some(s)
    ensures var (before, last) := (steps[..|steps| - 1], steps[|steps| - 1]);
            var s0 := Execute(c, INITIAL, before);
            s0.Some? && Enabled(c, s0.value, last) && s == Apply(c, s0.value, last)
  {
    var before, last := steps[..|steps| - 1], steps[|steps| - 1];
    assert steps == before + [last];
    ExecuteAppend(c, INITIAL, before, [last]);
    var s0 := Execute(c, INITIAL, before);
    if s0.Some? && Enabled(c, s0.value, last) {
      ExecuteFirst(c, s0.value, last, []);
      assert [last] + [] == [last];
    }
  }

  lemma TriesAfter(c: Setup, s: State, step: Step, t: Thread)
    requires Enabled(c, s, step)
    ensures var (pc, pc') := (PcOf(s, t), PcOf(Apply(c, s, step), t));
            pc'.Sending? ==>
              if step.Stop? || Mover(c, step) != t then pc' == pc
              else if step.Refuse? then pc.Sending? && pc'.tries == pc.tries + 1
              else pc'.tries == 0
  {
  }

  /** A thread's retry counter counts exactly its refused pushes in a row. */
  lemma {:induction false} TriesAreRefusals(c: Setup, steps: seq<Step>, s: State, t: Thread)
    requires Execute(c, INITIAL, steps) == Some(s) && PcOf(s, t).Sending?
    ensures PcOf(s, t).tries == RefusedInARow(c, steps, t)
    decreases |steps|
  {
    if steps != [] {
      var before, last := steps[..|steps| - 1], steps[|steps| - 1];
      ExecuteLast(c, steps, s);
      var s0 := Execute(c, INITIAL, before).value;
      TriesAfter(c, s0, last, t);
      if PcOf(s0, t).Sending? {
        TriesAreRefusals(c, before, s0, t);
      }
    }
  }

  /**
   In every run a refused push costs the message exactly if it is the hundredth in a row for a producer, the
   thousandth for any other thread.
   */
  lemma DroppedAfterLimit(c: Setup, steps: seq<Step>, s: State, t: Thread, seen: nat)
    requires Execute(c, INITIAL, steps) == Some(s) && Enabled(c, s, Refuse(t, seen))
    ensures EffectOf(c, s, Refuse(t, seen)) == Shift(Hand(t), Dropped(t, RetriesExhausted), Held(s, t).value) <==>
            RefusedInARow(c, steps + [Refuse(t, seen)], t) == if t.Producer? then 100 else 1000
    ensures RefusedInARow(c, steps + [Refuse(t, seen)], t) <= if t.Producer? then 100 else 1000
  {
    TriesAreRefusals(c, steps, s, t);
    RefusedLast(c, steps, Refuse(t, seen), t);
    assert Reachable(c, s);
    ReachableShape(c, s);
    assert PcOf(s, t).tries < Limit(t);
  }
}
