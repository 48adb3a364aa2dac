/**
 * The group rules share one map through string keys. After an evaluation the firing keys of the rule are
 * exactly its breaching groups, and the keys of the other rules are as they were, provided the key spaces of
 * the rules are apart; when they are is stated exactly.
 */
module AlertGroups {
  import opened Common
  import opened Alerts

  ghost predicate DistinctGroups(groups: seq<Group>) {
    forall i, j :: 0 <= i < j < |groups| ==> groups[i].0 != groups[j].0
  }

  ghost predicate BreachingGroup(rule: Rule, groups: seq<Group>, name: string) {
    exists i :: 0 <= i < |groups| && groups[i].0 == name && rule.Breaching(groups[i].1)
  }

  /** A number breaches as its comparator says; what is not a number never does. */
  lemma BreachesExactly(rule: Rule, x: real, threshold: real)
    requires rule.threshold == Number(threshold)
    ensures rule.Breaching(Number(x)) <==> match rule.comparator
                                           case Gt => x > threshold
                                           case Gte => x >= threshold
                                           case Lt => x < threshold
                                           case Lte => x <= threshold
    ensures !rule.Breaching(NaN)
    ensures rule.Breaching(PlusInfinity) <==> rule.comparator.Gt? || rule.comparator.Gte?
    ensures rule.Breaching(MinusInfinity) <==> rule.comparator.Lt? || rule.comparator.Lte?
  {
  }

  function Indices(n: nat): (all: set<nat>)
    ensures |all| == n && forall i: nat :: i in all <==> i < n
  {
    if n == 0 then {}
    else
      var rest := Indices(n - 1);
      assert n - 1 !in rest;
      rest + {n - 1}
  }

  /** The conditions that are met. */
  function MetAmong(rule: Rule, values: seq<F64>): set<nat>
    requires |values| == |rule.conditions|
  {
    set i | i in Indices(|values|) && rule.conditions[i].Met(values[i])
  }

  /** A composite rule counts them: one is enough for `any`, and all are needed otherwise. */
  lemma CompositeCounts(rule: Rule, values: seq<F64>)
    requires |values| == |rule.conditions|
    ensures CompositeBreaches(rule, values)
       <==> if rule.op == Some(Any) then |MetAmong(rule, values)| >= 1
            else |MetAmong(rule, values)| == |rule.conditions|
  {
    var met, all := MetAmong(rule, values), Indices(|values|);
    SubsetSize(met, all);
    if met == {} {
      forall i | 0 <= i < |values| ensures !rule.conditions[i].Met(values[i]) {
        assert i in all && i !in met;
      }
    } else {
      var i :| i in met;
    }
    if met == all {
      forall i | 0 <= i < |values| ensures rule.conditions[i].Met(values[i]) {
        assert i in all && i in met;
      }
    } else {
      var i :| i in all && i !in met;
    }
  }

  ghost predicate OwnKey(rule: Rule, key: string) {
    rule.Prefix() <= key
  }

  lemma OwnKeyIsKey(rule: Rule, key: string)
    ensures OwnKey(rule, key) <==> exists group :: key == rule.Key(group)
    ensures OwnKey(rule, key) ==> key == rule.Key(key[|rule.Prefix()|..])
    ensures forall group :: rule.Key(group)[|rule.Prefix()|..] == group
  {
    if OwnKey(rule, key) {
      assert key == rule.Key(key[|rule.Prefix()|..]);
    }
  }

  /** The loop over the groups changes no key but those of its groups. */
  lemma {:induction false} GroupsChangeOwnKeys(state: EngineState, rule: Rule, groups: seq<Group>, now: int,
                                               net: string -> seq<bool>, key: string)
    requires forall i :: 0 <= i < |groups| ==> key != rule.Key(groups[i].0)
    ensures var after := AfterGroups(state, rule, groups, now, net);
            (key in after <==> key in state) && (key in state ==> after[key] == state[key])
    decreases |groups|
  {
    if groups != [] {
      hide Process;
      GroupsChangeOwnKeys(state, rule, groups[..|groups| - 1], now, net, key);
    }
  }

  /** After the loop over the groups, each key fires as its group breaches. */
  lemma {:induction false} GroupsFire(state: EngineState, rule: Rule, groups: seq<Group>, now: int,
                                      net: string -> seq<bool>, i: nat)
    requires DistinctGroups(groups) && i < |groups|
    ensures var after := AfterGroups(state, rule, groups, now, net);
            rule.Key(groups[i].0) in after && after[rule.Key(groups[i].0)].firing == rule.Breaching(groups[i].1)
    decreases |groups|
  {
    hide Process;
    var n := |groups| - 1;
    if i == n {
      ProcessSetsFiring(AfterGroups(state, rule, groups[..n], now, net), rule, rule.Key(groups[n].0),
                        rule.Breaching(groups[n].1), now, net);
    } else {
      GroupsFire(state, rule, groups[..n], now, net, i);
      OwnKeyIsKey(rule, rule.Key(groups[i].0));
      OwnKeyIsKey(rule, rule.Key(groups[n].0));
    }
  }

  /** The firing keys of the rule are exactly the groups that breached in this evaluation; vanished groups resolved. */
  lemma FiringIsBreaching(state: EngineState, rule: Rule, groups: seq<Group>, now: int, net: string -> seq<bool>,
                          name: string)
    requires DistinctGroups(groups)
    ensures var after := AfterGroupRule(state, rule, Some(groups), now, net);
            EntryOf(after, rule.Key(name)).firing <==> BreachingGroup(rule, groups, name)
  {
    var mid, key := AfterGroups(state, rule, groups, now, net), rule.Key(name);
    OwnKeyIsKey(rule, key);
    if i :| 0 <= i < |groups| && groups[i].0 == name {
      GroupsFire(state, rule, groups, now, net, i);
      assert groups[i] in groups && name in GroupNames(groups);
      forall j | 0 <= j < |groups| && groups[j].0 == name ensures j == i {
      }
    } else {
      assert name !in GroupNames(groups);
      forall i | 0 <= i < |groups| ensures key != rule.Key(groups[i].0) {
        OwnKeyIsKey(rule, rule.Key(groups[i].0));
      }
      GroupsChangeOwnKeys(state, rule, groups, now, net, key);
    }
  }

  /** An evaluation touches no key outside the rule's own key space. */
  lemma OtherKeysUntouched(state: EngineState, rule: Rule, computed: Option<seq<Group>>, now: int,
                           net: string -> seq<bool>,
                           key: string)
    requires !OwnKey(rule, key)
    ensures var after := AfterGroupRule(state, rule, computed, now, net);
            (key in after <==> key in state) && (key in state ==> after[key] == state[key])
  {
    if computed.Some? {
      forall i | 0 <= i < |computed.value| ensures key != rule.Key(computed.value[i].0) {
        OwnKeyIsKey(rule, rule.Key(computed.value[i].0));
      }
      GroupsChangeOwnKeys(state, rule, computed.value, now, net, key);
    }
  }

  // ---------------------------------------------------------------- when key spaces are apart

  /** Two group rules share a key exactly when one prefix `name::` extends the other. */
  lemma SharedKeyExactly(a: Rule, b: Rule)
    ensures (exists ga, gb :: a.Key(ga) == b.Key(gb)) <==> (a.Prefix() <= b.Prefix() || b.Prefix() <= a.Prefix())
  {
    if ga, gb :| a.Key(ga) == b.Key(gb) {
      CommonExtension(a.Prefix(), b.Prefix(), a.Key(ga));
    }
    if a.Prefix() <= b.Prefix() {
      assert a.Key(b.Prefix()[|a.Prefix()|..]) == b.Key("");
    } else if b.Prefix() <= a.Prefix() {
      assert b.Key(a.Prefix()[|b.Prefix()|..]) == a.Key("");
    }
  }

  /** Evaluating rule b, however it comes out, leaves every state of rule a as it was. */
  ghost predicate LeavesAlone(b: Rule, a: Rule) {
    forall state: EngineState, computed: Option<seq<Group>>, now: int, net: string -> seq<bool>, name: string ::
      EntryOf(AfterGroupRule(state, b, computed, now, net), a.Key(name)) == EntryOf(state, a.Key(name))
  }

  /** Two group rules are isolated exactly when neither prefix extends the other. */
  lemma IsolatedExactly(a: Rule, b: Rule)
    ensures LeavesAlone(b, a) <==> !(a.Prefix() <= b.Prefix() || b.Prefix() <= a.Prefix())
  {
    SharedKeyExactly(a, b);
    if a.Prefix() <= b.Prefix() || b.Prefix() <= a.Prefix() {
      var ga, gb :| a.Key(ga) == b.Key(gb);
      VanishedResolves(b, gb);
    } else {
      forall state: EngineState, computed: Option<seq<Group>>, now: int, net: string -> seq<bool>, name: string
        ensures EntryOf(AfterGroupRule(state, b, computed, now, net), a.Key(name)) == EntryOf(state, a.Key(name))
      {
        OwnKeyIsKey(b, a.Key(name));
        OtherKeysUntouched(state, b, computed, now, net, a.Key(name));
      }
    }
  }

  /** A firing key of the rule is resolved by an evaluation without groups. */
  lemma VanishedResolves(rule: Rule, name: string)
    ensures var state := map[rule.Key(name) := RuleState(true, None)];
            EntryOf(AfterGroupRule(state, rule, Some([]), 0, _ => []), rule.Key(name)) != EntryOf(state, rule.Key(name))
  {
    OwnKeyIsKey(rule, rule.Key(name));
    assert !BreachingGroup(rule, [], name);
    FiringIsBreaching(map[rule.Key(name) := RuleState(true, None)], rule, [], 0, _ => [], name);
  }

  lemma CommonExtension(p: string, q: string, s: string)
    requires p <= s && q <= s
    ensures p <= q || q <= p
  {
    assert p == s[..|p|] && q == s[..|q|];
  }

  predicate ColonFree(name: string) {
    ':' !in name
  }

  /** Distinct names without colons are enough: neither prefix extends the other, and no name is a group key. */
  lemma ColonFreeNamesApart(a: Rule, b: Rule)
    requires a.name != b.name && ColonFree(a.name) && ColonFree(b.name)
    ensures !(a.Prefix() <= b.Prefix()) && !(b.Prefix() <= a.Prefix())
    ensures !OwnKey(a, b.name) && !OwnKey(b, a.name)
  {
    PrefixEndsAtColon(a, b);
    PrefixEndsAtColon(b, a);
    assert a.Prefix()[|a.name|] == ':' && b.Prefix()[|b.name|] == ':';
  }

  lemma NameHasNoColon(r: Rule)
    requires ColonFree(r.name)
    ensures forall i :: 0 <= i < |r.name| ==> r.Prefix()[i] != ':'
  {
  }

  lemma PrefixEndsAtColon(a: Rule, b: Rule)
    requires ColonFree(a.name) && ColonFree(b.name)
    ensures a.Prefix() <= b.Prefix() ==> a.name == b.name
  {
    if a.Prefix() <= b.Prefix() {
      assert a.Prefix()[|a.name|] == ':';
      assert b.Prefix()[|a.name|] == ':';
      NameHasNoColon(b);
      assert a.name == a.Prefix()[..|a.name|] && b.name == b.Prefix()[..|b.name|];
    }
  }

  /** Colons in names do make rules interfere: group `:g` of rule `r` and group `g` of rule `r:` share a key. */
  lemma ColonsCollide(r: string, g: string, a: Rule, b: Rule)
    requires a.name == r && b.name == r + ":"
    ensures a.Key(":" + g) == b.Key(g)
  {
  }

  // ---------------------------------------------------------------- one pass over all rules

  /** What the database answered for a rule: groups, or one value; None when the query failed. */
  datatype Answer = GroupAnswer(groups: Option<seq<Group>>) | ValueAnswer(breaching: Option<bool>)

  ghost predicate WellFormed(answer: Answer) {
    answer.GroupAnswer? && answer.groups.Some? ==> DistinctGroups(answer.groups.value)
  }

  function AfterRule(state: EngineState, rule: Rule, answer: Answer, now: int, net: string -> seq<bool>): EngineState {
    match answer
    case GroupAnswer(groups) => AfterGroupRule(state, rule, groups, now, net)
    case ValueAnswer(None) => state
    case ValueAnswer(Some(b)) => state[rule.name := Process(state, rule, rule.name, b, now, net).0]
  }

  /** `evaluate_once`: the rules in order, all at the same instant. */
  function AfterPass(state: EngineState, rules: seq<Rule>, answers: seq<Answer>, now: int, net: string -> seq<bool>)
    : EngineState
    requires |rules| == |answers|
    decreases |rules|
  {
    if rules == [] then state
    else AfterPass(AfterRule(state, rules[0], answers[0], now, net), rules[1..], answers[1..], now, net)
  }

  /** The keys a rule writes are apart from a key of another rule. */
  ghost predicate Foreign(rule: Rule, answer: Answer, key: string) {
    if answer.GroupAnswer? then !OwnKey(rule, key) else key != rule.name
  }

  lemma {:induction false} ForeignKeysUntouched(state: EngineState, rules: seq<Rule>, answers: seq<Answer>, now: int,
                                                net: string -> seq<bool>, key: string)
    requires |rules| == |answers|
    requires forall i :: 0 <= i < |rules| ==> Foreign(rules[i], answers[i], key)
    ensures EntryOf(AfterPass(state, rules, answers, now, net), key) == EntryOf(state, key)
    decreases |rules|
  {
    if rules != [] {
      assert Foreign(rules[0], answers[0], key);
      if answers[0].GroupAnswer? {
        OtherKeysUntouched(state, rules[0], answers[0].groups, now, net, key);
      }
      forall i | 0 <= i < |rules[1..]| ensures Foreign(rules[1..][i], answers[1..][i], key) {
        assert Foreign(rules[i + 1], answers[i + 1], key);
      }
      ForeignKeysUntouched(AfterRule(state, rules[0], answers[0], now, net), rules[1..], answers[1..], now, net, key);
    }
  }

  ghost predicate NamesApart(rules: seq<Rule>) {
    forall i, j :: 0 <= i < j < |rules| ==>
      rules[i].name != rules[j].name && ColonFree(rules[i].name) && ColonFree(rules[j].name)
  }

  /** The key that a rule's answer is about: its name, or that of a group. */
  function AnswerKey(rule: Rule, answer: Answer, group: string): string {
    if answer.GroupAnswer? then rule.Key(group) else rule.name
  }

  /** What a computed answer makes of the key of a rule; a failed one leaves it as it was. */
  ghost predicate Settled(before: RuleState, after: RuleState, rule: Rule, answer: Answer, group: string) {
    match answer
    case GroupAnswer(Some(groups)) => after.firing <==> BreachingGroup(rule, groups, group)
    case ValueAnswer(Some(b)) => after.firing == b
    case _ => after == before
  }

  /**
   * After a pass over all rules, each group rule that was computed fires exactly for its breaching groups, and each
   * value rule that was computed fires exactly when it breaches; a rule that failed kept all its states. The keys
   * of the other rules only have to be apart from the one in question.
   */
  lemma {:induction false} PassIsExact(state: EngineState, rules: seq<Rule>, answers: seq<Answer>, now: int,
                                       net: string -> seq<bool>, i: nat, group: string)
    requires |rules| == |answers| && i < |rules| && WellFormed(answers[i])
    requires forall j :: 0 <= j < |rules| && j != i ==>
               Foreign(rules[j], answers[j], AnswerKey(rules[i], answers[i], group))
    ensures var key := AnswerKey(rules[i], answers[i], group);
            Settled(EntryOf(state, key), EntryOf(AfterPass(state, rules, answers, now, net), key), rules[i],
                    answers[i], group)
    decreases |rules|
  {
    hide AfterGroupRule, Process, WellFormed, BreachingGroup;
    var key := AnswerKey(rules[i], answers[i], group);
    var first := AfterRule(state, rules[0], answers[0], now, net);
    if i == 0 {
      RuleSettles(state, rules[0], answers[0], now, net, group);
      forall j | 0 <= j < |rules[1..]| ensures Foreign(rules[1..][j], answers[1..][j], key) {
        assert Foreign(rules[j + 1], answers[j + 1], key);
      }
      ForeignKeysUntouched(first, rules[1..], answers[1..], now, net, key);
    } else {
      assert Foreign(rules[0], answers[0], key);
      if answers[0].GroupAnswer? {
        OtherKeysUntouched(state, rules[0], answers[0].groups, now, net, key);
      }
      assert EntryOf(first, key) == EntryOf(state, key);
      forall j | 0 <= j < |rules[1..]| && j != i - 1 ensures Foreign(rules[1..][j], answers[1..][j], key) {
        assert Foreign(rules[j + 1], answers[j + 1], key);
      }
      PassIsExact(first, rules[1..], answers[1..], now, net, i - 1, group);
    }
  }

  lemma RuleSettles(state: EngineState, rule: Rule, answer: Answer, now: int, net: string -> seq<bool>, group: string)
    requires WellFormed(answer)
    ensures var key := AnswerKey(rule, answer, group);
            Settled(EntryOf(state, key), EntryOf(AfterRule(state, rule, answer, now, net), key), rule, answer, group)
  {
    hide AfterGroupRule, Process;
    match answer
    case GroupAnswer(Some(groups)) => FiringIsBreaching(state, rule, groups, now, net, group);
    case GroupAnswer(None) => FailureChangesNothing(state, rule, now, net);
    case ValueAnswer(Some(b)) => ProcessSetsFiring(state, rule, rule.name, b, now, net);
    case ValueAnswer(None) =>
  }

  /** Distinct names without colons are enough for that. */
  lemma NamedPassIsExact(state: EngineState, rules: seq<Rule>, answers: seq<Answer>, now: int,
                         net: string -> seq<bool>, i: nat, group: string)
    requires |rules| == |answers| && i < |rules| && NamesApart(rules) && ColonFree(rules[i].name)
             && WellFormed(answers[i])
    ensures var key := AnswerKey(rules[i], answers[i], group);
            Settled(EntryOf(state, key), EntryOf(AfterPass(state, rules, answers, now, net), key), rules[i],
                    answers[i], group)
  {
    forall j | 0 <= j < |rules| && j != i ensures Foreign(rules[j], answers[j],
                                                          AnswerKey(rules[i], answers[i], group)) {
      KeysOfOthers(rules[i], rules[j], answers[j], group);
    }
    PassIsExact(state, rules, answers, now, net, i, group);
  }

  lemma ProcessSetsFiring(state: EngineState, rule: Rule, key: string, breaching: bool, now: int,
                          net: string -> seq<bool>)
    ensures Process(state, rule, key, breaching, now, net).0.firing == breaching
  {
  }

  lemma FailureChangesNothing(state: EngineState, rule: Rule, now: int, net: string -> seq<bool>)
    ensures AfterGroupRule(state, rule, None, now, net) == state
  {
  }

  lemma KeysOfOthers(rule: Rule, other: Rule, answer: Answer, name: string)
    requires rule.name != other.name && ColonFree(rule.name) && ColonFree(other.name)
    ensures Foreign(other, answer, rule.Key(name)) && Foreign(other, answer, rule.name)
  {
    ColonFreeNamesApart(rule, other);
    SharedKeyExactly(rule, other);
    OwnKeyIsKey(other, rule.Key(name));
    if answer.ValueAnswer? {
      assert rule.Key(name)[|rule.name|] == ':';
    }
  }
}
