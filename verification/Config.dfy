/** The system configuration and the two routing functions that read it. */
module Config {
  import opened Wrappers

  datatype Stage1Rule = Stage1Rule(msgType: nat, processors: seq<nat>)

  datatype Stage2Rule = Stage2Rule(msgType: nat, strategy: nat, orderingRequired: bool)

  datatype SystemConfig = SystemConfig(
    durationSecs: int, producers: int, messagesPerSec: int, processors: int, strategies: int,
    stage1Rules: seq<Stage1Rule>, stage2Rules: seq<Stage2Rule>)
  {
    predicate Validate() {
      producers > 0 && processors > 0 && strategies > 0 && durationSecs > 0
    }

    function ProcessorFor(msgType: nat): nat {
      FirstProcessor(stage1Rules, msgType)
    }

    function StrategyFor(msgType: nat): nat {
      FirstStrategy(stage2Rules, msgType)
    }
  }

  function FirstProcessor(rules: seq<Stage1Rule>, msgType: nat): nat {
    if rules == [] then 0
    else if rules[0].msgType == msgType && rules[0].processors != [] then rules[0].processors[0]
    else FirstProcessor(rules[1..], msgType)
  }

  function FirstStrategy(rules: seq<Stage2Rule>, msgType: nat): nat {
    if rules == [] then 0
    else if rules[0].msgType == msgType then rules[0].strategy
    else FirstStrategy(rules[1..], msgType)
  }

  /** Rule `i` is the one stage 1 follows for this type. */
  ghost predicate DecidesStage1(rules: seq<Stage1Rule>, msgType: nat, i: nat) {
    && i < |rules| && rules[i].msgType == msgType && rules[i].processors != []
    && forall j :: 0 <= j < i ==> rules[j].msgType != msgType || rules[j].processors == []
  }

  ghost predicate DecidesStage2(rules: seq<Stage2Rule>, msgType: nat, i: nat) {
    && i < |rules| && rules[i].msgType == msgType
    && forall j :: 0 <= j < i ==> rules[j].msgType != msgType
  }

  /** The first usable rule for the type, if there is one, and what it makes of the lookup. */
  lemma {:induction false} Stage1Decision(rules: seq<Stage1Rule>, msgType: nat) returns (i: Option<nat>)
    ensures i.Some? ==> DecidesStage1(rules, msgType, i.value)
    ensures i.Some? ==> FirstProcessor(rules, msgType) == rules[i.value].processors[0]
    ensures i.None? ==> FirstProcessor(rules, msgType) == 0 && forall j: nat :: !DecidesStage1(rules, msgType, j)
  {
    if rules == [] {
      i := None;
    } else if rules[0].msgType == msgType && rules[0].processors != [] {
      i := Some(0);
    } else {
      var rest := Stage1Decision(rules[1..], msgType);
      i := if rest.None? then None else Some(rest.value + 1);
      forall j: nat | DecidesStage1(rules, msgType, j) ensures j > 0 && DecidesStage1(rules[1..], msgType, j - 1) {
        assert forall l :: 0 <= l < j - 1 ==> rules[1..][l] == rules[l + 1];
      }
    }
  }

  /** The rule that decides for the type names a processor that does not exist. */
  ghost predicate NoProcessorFor(c: SystemConfig, msgType: nat) {
    exists i: nat :: DecidesStage1(c.stage1Rules, msgType, i) && c.stage1Rules[i].processors[0] >= c.processors
  }

  /** The rule that decides for the type names a strategy that does not exist. */
  ghost predicate NoStrategyFor(c: SystemConfig, msgType: nat) {
    exists i: nat :: DecidesStage2(c.stage2Rules, msgType, i) && c.stage2Rules[i].strategy >= c.strategies
  }

  /**
   With a validated configuration the default target 0 exists, so stage 1 finds a target out of range exactly
   when the rule that decides for the type names one.
   */
  lemma Stage1ErrorsComeFromRules(c: SystemConfig, msgType: nat)
    requires c.Validate()
    ensures c.ProcessorFor(msgType) >= c.processors <==> NoProcessorFor(c, msgType)
  {
    var decision := Stage1Decision(c.stage1Rules, msgType);
    if decision.Some? {
      forall j: nat | DecidesStage1(c.stage1Rules, msgType, j) ensures j == decision.value {
        assert DecidesStage1(c.stage1Rules, msgType, decision.value);
      }
    }
  }

  /** The first rule for the type, if there is one, and what it makes of the lookup. */
  lemma {:induction false} Stage2Decision(rules: seq<Stage2Rule>, msgType: nat) returns (i: Option<nat>)
    ensures i.Some? ==> DecidesStage2(rules, msgType, i.value)
    ensures i.Some? ==> FirstStrategy(rules, msgType) == rules[i.value].strategy
    ensures i.None? ==> FirstStrategy(rules, msgType) == 0 && forall j: nat :: !DecidesStage2(rules, msgType, j)
  {
    if rules == [] {
      i := None;
    } else if rules[0].msgType == msgType {
      i := Some(0);
    } else {
      var rest := Stage2Decision(rules[1..], msgType);
      i := if rest.None? then None else Some(rest.value + 1);
      forall j: nat | DecidesStage2(rules, msgType, j) ensures j > 0 && DecidesStage2(rules[1..], msgType, j - 1) {
        assert forall l :: 0 <= l < j - 1 ==> rules[1..][l] == rules[l + 1];
      }
    }
  }

  /**
   With a validated configuration the default target 0 exists, so stage 2 finds a target out of range exactly
   when the rule that decides for the type names one.
   */
  lemma Stage2ErrorsComeFromRules(c: SystemConfig, msgType: nat)
    requires c.Validate()
    ensures c.StrategyFor(msgType) >= c.strategies <==> NoStrategyFor(c, msgType)
  {
    var decision := Stage2Decision(c.stage2Rules, msgType);
    if decision.Some? {
      forall j: nat | DecidesStage2(c.stage2Rules, msgType, j) ensures j == decision.value {
        assert DecidesStage2(c.stage2Rules, msgType, decision.value);
      }
    }
  }
}
