/**
 * One state key inside whole passes of the engine: what the rules do to it, group by group and pass by pass, is one
 * of the runs of `AlertRuns`. A key of a group rule is only looked at when its group is there or still fires.
 */
module AlertEngineRuns {
  import opened Common
  import opened Alerts
  import opened AlertGroups
  import opened AlertRuns

  /** One pass over all rules: what was computed for each, when, and what the notifiers answer for a key. */
  datatype Pass = Pass(answers: seq<Answer>, now: int, net: string -> seq<bool>)

  /** What an answer says about a key of its rule, if it says anything. */
  ghost function Observed(entry: RuleState, rule: Rule, answer: Answer, key: string, now: int, delivered: bool)
    : Option<Obs>
  {
    match answer
    case ValueAnswer(None) => None
    case ValueAnswer(Some(b)) => Some(Obs(b, now, delivered))
    case GroupAnswer(None) => None
    case GroupAnswer(Some(groups)) =>
      if !OwnKey(rule, key) then None
      else
        var name := key[|rule.Prefix()|..];
        if name in GroupNames(groups) then Some(Obs(BreachingGroup(rule, groups, name), now, delivered))
        else if entry.firing then Some(Obs(false, now, delivered))
        else None
  }

  ghost function After(entry: RuleState, cooldown: nat, o: Option<Obs>): RuleState {
    if o.None? then entry else Processed(entry, o.value.breaching, cooldown, o.value.now, o.value.delivered).0
  }

  // ---------------------------------------------------------------- one rule

  lemma {:induction false} GroupsObserve(state: EngineState, rule: Rule, groups: seq<Group>, now: int,
                                         net: string -> seq<bool>, i: nat)
    requires DistinctGroups(groups) && i < |groups|
    ensures var key := rule.Key(groups[i].0);
            EntryOf(AfterGroups(state, rule, groups, now, net), key)
            == Process(state, rule, key, rule.Breaching(groups[i].1), now, net).0
    decreases |groups|
  {
    hide Processed;
    var n, key := |groups| - 1, rule.Key(groups[i].0);
    OwnKeyIsKey(rule, key);
    if i == n {
      forall j | 0 <= j < n ensures key != rule.Key(groups[..n][j].0) {
        OwnKeyIsKey(rule, rule.Key(groups[j].0));
      }
      GroupsChangeOwnKeys(state, rule, groups[..n], now, net, key);
    } else {
      GroupsObserve(state, rule, groups[..n], now, net, i);
      OwnKeyIsKey(rule, rule.Key(groups[n].0));
    }
  }

  lemma GroupRuleObserves(state: EngineState, rule: Rule, groups: seq<Group>, now: int, net: string -> seq<bool>,
                          name: string)
    requires DistinctGroups(groups)
    ensures var key := rule.Key(name);
            EntryOf(AfterGroupRule(state, rule, Some(groups), now, net), key)
            == After(EntryOf(state, key), rule.cooldownSecs,
                     Observed(EntryOf(state, key), rule, GroupAnswer(Some(groups)), key, now, true in net(key)))
  {
    var mid, key := AfterGroups(state, rule, groups, now, net), rule.Key(name);
    OwnKeyIsKey(rule, key);
    if i :| 0 <= i < |groups| && groups[i].0 == name {
      GroupsObserve(state, rule, groups, now, net, i);
      assert groups[i] in groups && name in GroupNames(groups);
      assert BreachingGroup(rule, groups, name) <==> rule.Breaching(groups[i].1);
      hide Processed, AfterGroups;
    } else {
      assert name !in GroupNames(groups);
      forall i | 0 <= i < |groups| ensures key != rule.Key(groups[i].0) {
        OwnKeyIsKey(rule, rule.Key(groups[i].0));
      }
      GroupsChangeOwnKeys(state, rule, groups, now, net, key);
      hide Processed, AfterGroups;
    }
  }

  /** The key of a rule: its name, or one for each group. */
  ghost predicate KeyOfRule(rule: Rule, answer: Answer, key: string) {
    if answer.GroupAnswer? then OwnKey(rule, key) else key == rule.name
  }

  lemma RuleObserves(state: EngineState, rule: Rule, answer: Answer, now: int, net: string -> seq<bool>, key: string)
    requires WellFormed(answer) && KeyOfRule(rule, answer, key)
    ensures EntryOf(AfterRule(state, rule, answer, now, net), key)
         == After(EntryOf(state, key), rule.cooldownSecs,
                  Observed(EntryOf(state, key), rule, answer, key, now, true in net(key)))
  {
    if answer.GroupAnswer? {
      OwnKeyIsKey(rule, key);
      if answer.groups.Some? {
        GroupRuleObserves(state, rule, answer.groups.value, now, net, key[|rule.Prefix()|..]);
      } else {
        FailureChangesNothing(state, rule, now, net);
      }
    }
    hide Processed, AfterGroupRule;
  }

  // ---------------------------------------------------------------- one pass

  lemma {:induction false} PassObserves(state: EngineState, rules: seq<Rule>, answers: seq<Answer>, now: int,
                                        net: string -> seq<bool>, i: nat, key: string)
    requires |rules| == |answers| && i < |rules|
    requires WellFormed(answers[i]) && KeyOfRule(rules[i], answers[i], key)
    requires forall j :: 0 <= j < |rules| && j != i ==> Foreign(rules[j], answers[j], key)
    ensures EntryOf(AfterPass(state, rules, answers, now, net), key)
         == After(EntryOf(state, key), rules[i].cooldownSecs,
                  Observed(EntryOf(state, key), rules[i], answers[i], key, now, true in net(key)))
    decreases |rules|
  {
    hide Processed, AfterGroupRule, Observed, After, WellFormed;
    var first := AfterRule(state, rules[0], answers[0], now, net);
    if i == 0 {
      RuleObserves(state, rules[0], answers[0], now, net, key);
      forall j | 0 <= j < |rules[1..]| ensures Foreign(rules[1..][j], answers[1..][j], key) {
        assert Foreign(rules[j + 1], answers[j + 1], key);
      }
      ForeignKeysUntouched(first, rules[1..], answers[1..], now, net, key);
    } else {
      assert Foreign(rules[0], answers[0], key);
      if answers[0].GroupAnswer? {
        OtherKeysUntouched(state, rules[0], answers[0].groups, now, net, key);
      }
      assert EntryOf(first, key) == EntryOf(state, key);
      forall j | 0 <= j < |rules[1..]| && j != i - 1 ensures Foreign(rules[1..][j], answers[1..][j], key) {
        assert Foreign(rules[j + 1], answers[j + 1], key);
      }
      PassObserves(first, rules[1..], answers[1..], now, net, i - 1, key);
    }
  }

  // ---------------------------------------------------------------- whole runs

  /** In every pass the key belongs to rule i and to no other. */
  ghost predicate Owned(rules: seq<Rule>, passes: seq<Pass>, i: nat, key: string)
    requires i < |rules|
  {
    forall n :: 0 <= n < |passes| ==>
      && |passes[n].answers| == |rules| && WellFormed(passes[n].answers[i])
      && KeyOfRule(rules[i], passes[n].answers[i], key)
      && forall j :: 0 <= j < |rules| && j != i ==> Foreign(rules[j], passes[n].answers[j], key)
  }

  ghost function EngineAfter(rules: seq<Rule>, passes: seq<Pass>): EngineState
    requires forall n :: 0 <= n < |passes| ==> |passes[n].answers| == |rules|
  {
    if passes == [] then map[]
    else
      var before, p := passes[..|passes| - 1], passes[|passes| - 1];
      AfterPass(EngineAfter(rules, before), rules, p.answers, p.now, p.net)
  }

  /** What the passes say about the key, in order. */
  ghost function Observations(rules: seq<Rule>, passes: seq<Pass>, i: nat, key: string): seq<Obs>
    requires i < |rules| && forall n :: 0 <= n < |passes| ==> |passes[n].answers| == |rules|
  {
    if passes == [] then []
    else
      var before, p := passes[..|passes| - 1], passes[|passes| - 1];
      var entry := EntryOf(EngineAfter(rules, before), key);
      var o := Observed(entry, rules[i], p.answers[i], key, p.now, true in p.net(key));
      Observations(rules, before, i, key) + if o.Some? then [o.value] else []
  }

  /** The entry of the key is that of the run of its observations. */
  lemma {:induction false} KeyFollowsRun(rules: seq<Rule>, passes: seq<Pass>, i: nat, key: string)
    requires i < |rules| && Owned(rules, passes, i, key)
    ensures EntryOf(EngineAfter(rules, passes), key)
         == Entry(Initial, rules[i].cooldownSecs, Observations(rules, passes, i, key))
  {
    if passes != [] {
      var before, p := passes[..|passes| - 1], passes[|passes| - 1];
      KeyFollowsRun(rules, before, i, key);
      PassObserves(EngineAfter(rules, before), rules, p.answers, p.now, p.net, i, key);
      hide Processed, AfterPass, Observed;
      var run, all := Observations(rules, before, i, key), Observations(rules, passes, i, key);
      if all != run {
        assert all[..|all| - 1] == run;
      }
    }
  }

  /** The notifications of the key over a run of the engine: those of its observations. */
  ghost function Notes(rules: seq<Rule>, passes: seq<Pass>, i: nat, key: string): seq<Note>
    requires i < |rules| && forall n :: 0 <= n < |passes| ==> |passes[n].answers| == |rules|
  {
    Sent(Initial, rules[i].cooldownSecs, Observations(rules, passes, i, key))
  }

  /** Over whole runs of the engine, two notifications of a key are at least the cooldown of its rule apart. */
  lemma CooldownInEngine(rules: seq<Rule>, passes: seq<Pass>, i: nat, key: string, a: nat, b: nat)
    requires i < |rules| && Owned(rules, passes, i, key) && rules[i].cooldownSecs > 0
    requires a < b < |Notes(rules, passes, i, key)|
    ensures var notes := Notes(rules, passes, i, key);
            notes[b].at - notes[a].at >= (b - a) * (rules[i].cooldownSecs * SECOND)
    ensures EntryOf(EngineAfter(rules, passes), key).lastNotified.Some?
  {
    var run := Observations(rules, passes, i, key);
    CooldownApart(rules[i].cooldownSecs, run, a, b);
    LastNotifiedIsLastSent(rules[i].cooldownSecs, run);
    KeyFollowsRun(rules, passes, i, key);
  }

  /** Distinct names without colons make every key that a rule uses its own. */
  lemma NamesOwnKeys(rules: seq<Rule>, passes: seq<Pass>, i: nat, key: string)
    requires i < |rules| && NamesApart(rules) && ColonFree(rules[i].name)
    requires forall n :: 0 <= n < |passes| ==>
               && |passes[n].answers| == |rules| && WellFormed(passes[n].answers[i])
               && KeyOfRule(rules[i], passes[n].answers[i], key)
    ensures Owned(rules, passes, i, key)
  {
    forall n, j | 0 <= n < |passes| && 0 <= j < |rules| && j != i
      ensures Foreign(rules[j], passes[n].answers[j], key)
    {
      var name := if OwnKey(rules[i], key) then key[|rules[i].Prefix()|..] else "";
      OwnKeyIsKey(rules[i], key);
      KeysOfOthers(rules[i], rules[j], passes[n].answers[j], name);
    }
  }

  // ---------------------------------------------------------------- what an evaluation reports as sent

  /** The evaluation sends a notification for the key. */
  ghost predicate Notifies(state: EngineState, rule: Rule, groups: seq<Group>, now: int, net: string -> seq<bool>,
                           key: string)
  {
    var o := Observed(EntryOf(state, key), rule, GroupAnswer(Some(groups)), key, now, true in net(key));
    o.Some? && Processed(EntryOf(state, key), o.value.breaching, rule.cooldownSecs, now, o.value.delivered).1.Some?
  }

  function KeysOf(rule: Rule, groups: seq<Group>): set<string> {
    set g | g in groups :: rule.Key(g.0)
  }

  lemma GroupNotifies(state: EngineState, rule: Rule, groups: seq<Group>, now: int, net: string -> seq<bool>, i: nat)
    requires DistinctGroups(groups) && i < |groups|
    ensures var key := rule.Key(groups[i].0);
            Notifies(state, rule, groups, now, net, key)
            <==> Process(state, rule, key, rule.Breaching(groups[i].1), now, net).1.Some?
  {
    var key := rule.Key(groups[i].0);
    OwnKeyIsKey(rule, key);
    assert groups[i] in groups && groups[i].0 in GroupNames(groups);
    assert BreachingGroup(rule, groups, groups[i].0) <==> rule.Breaching(groups[i].1);
    hide Processed;
  }

  ghost function NotifiedOf(state: EngineState, rule: Rule, groups: seq<Group>, now: int, net: string -> seq<bool>,
                            keys: set<string>): set<string> {
    set k | k in keys && Notifies(state, rule, groups, now, net, k)
  }

  lemma KeysStep(rule: Rule, groups: seq<Group>, n: nat)
    requires DistinctGroups(groups) && 0 < n <= |groups|
    ensures var (rest, key) := (groups[..n - 1], rule.Key(groups[n - 1].0));
            && (forall j :: 0 <= j < n - 1 ==> key != rule.Key(rest[j].0))
            && KeysOf(rule, groups[..n]) == KeysOf(rule, rest) + {key} && key !in KeysOf(rule, rest)
  {
    var rest, key := groups[..n - 1], rule.Key(groups[n - 1].0);
    assert groups[..n] == rest + [groups[n - 1]];
    forall j | 0 <= j < n - 1 ensures key != rule.Key(rest[j].0) {
      OwnKeyIsKey(rule, key);
      OwnKeyIsKey(rule, rule.Key(rest[j].0));
    }
  }

  lemma OneMoreKey(state: EngineState, rule: Rule, groups: seq<Group>, now: int, net: string -> seq<bool>,
                   keys: set<string>, key: string)
    requires key !in keys
    ensures |NotifiedOf(state, rule, groups, now, net, keys + {key})|
         == |NotifiedOf(state, rule, groups, now, net, keys)| + if Notifies(state, rule, groups, now, net, key) then 1
           else 0
  {
    hide Notifies;
    var was := NotifiedOf(state, rule, groups, now, net, keys);
    assert NotifiedOf(state, rule, groups, now, net, keys + {key})
        == if Notifies(state, rule, groups, now, net, key) then was + {key} else was;
  }

  lemma SentStep(state: EngineState, rule: Rule, groups: seq<Group>, now: int, net: string -> seq<bool>, n: nat)
    requires DistinctGroups(groups) && 0 < n <= |groups|
    ensures SentForGroups(state, rule, groups[..n], now, net)
         == SentForGroups(state, rule, groups[..n - 1], now, net)
            + if Notifies(state, rule, groups, now, net, rule.Key(groups[n - 1].0)) then 1 else 0
  {
    KeysStep(rule, groups, n);
    GroupNotifies(state, rule, groups, now, net, n - 1);
    assert groups[..n][..n - 1] == groups[..n - 1];
    hide Notifies, Processed, KeysOf;
    GroupsChangeOwnKeys(state, rule, groups[..n - 1], now, net, rule.Key(groups[n - 1].0));
  }

  /** The loop over the groups counts the keys of groups that it notifies. */
  lemma {:induction false} GroupsReport(state: EngineState, rule: Rule, groups: seq<Group>, now: int,
                                        net: string -> seq<bool>, n: nat)
    requires DistinctGroups(groups) && n <= |groups|
    ensures SentForGroups(state, rule, groups[..n], now, net)
         == |NotifiedOf(state, rule, groups, now, net, KeysOf(rule, groups[..n]))|
  {
    if n > 0 {
      SentStep(state, rule, groups, now, net, n);
      KeysStep(rule, groups, n);
      hide SentForGroups, KeysOf, Notifies, NotifiedOf;
      GroupsReport(state, rule, groups, now, net, n - 1);
      OneMoreKey(state, rule, groups, now, net, KeysOf(rule, groups[..n - 1]), rule.Key(groups[n - 1].0));
    }
  }

  /** A stale key is notified as one that has stopped breaching. */
  lemma StaleNotifies(state: EngineState, rule: Rule, groups: seq<Group>, now: int, net: string -> seq<bool>,
                      key: string)
    requires DistinctGroups(groups)
    ensures var mid := AfterGroups(state, rule, groups, now, net);
            && (key in Stale(mid, rule, GroupNames(groups)) ==>
                  && key !in KeysOf(rule, groups)
                  && (Notifies(state, rule, groups, now, net, key)
                      <==> Process(mid, rule, key, false, now, net).1.Some?))
            && (Notifies(state, rule, groups, now, net, key) ==>
                  key in KeysOf(rule, groups) || key in Stale(mid, rule, GroupNames(groups)))
  {
    OwnKeyIsKey(rule, key);
    if key in KeysOf(rule, groups) {
      var g :| g in groups && key == rule.Key(g.0);
      OwnKeyIsKey(rule, key);
    } else {
      forall i | 0 <= i < |groups| ensures key != rule.Key(groups[i].0) {
        assert groups[i] in groups;
      }
      GroupsChangeOwnKeys(state, rule, groups, now, net, key);
    }
    hide AfterGroups;
  }

  lemma StaleReport(state: EngineState, rule: Rule, groups: seq<Group>, now: int, net: string -> seq<bool>)
    requires DistinctGroups(groups)
    ensures var mid := AfterGroups(state, rule, groups, now, net);
            var stale := Stale(mid, rule, GroupNames(groups));
            && SentForStale(mid, rule, stale, now, net) == |NotifiedOf(state, rule, groups, now, net, stale)|
            && NotifiedOf(state, rule, groups, now, net, stale) !! KeysOf(rule, groups)
  {
    var mid := AfterGroups(state, rule, groups, now, net);
    var stale := Stale(mid, rule, GroupNames(groups));
    forall key { StaleNotifies(state, rule, groups, now, net, key); }
    hide Notifies, Process, AfterGroups, Stale, KeysOf;
    assert NotifiedOf(state, rule, groups, now, net, stale)
        == set k | k in stale && Process(mid, rule, k, false, now, net).1.Some?;
  }

  /** What a successful evaluation reports as sent is the number of keys that it notifies. */
  lemma ReportsNotes(state: EngineState, rule: Rule, groups: seq<Group>, now: int, net: string -> seq<bool>)
    returns (notified: set<string>)
    requires DistinctGroups(groups)
    ensures forall key :: key in notified <==> Notifies(state, rule, groups, now, net, key)
    ensures SentForGroupRule(state, rule, Some(groups), now, net) == |notified|
    ensures SentForGroupRule(state, rule, None, now, net) == 0
  {
    var mid := AfterGroups(state, rule, groups, now, net);
    var own, stale := KeysOf(rule, groups), Stale(mid, rule, GroupNames(groups));
    var a, b := NotifiedOf(state, rule, groups, now, net, own), NotifiedOf(state, rule, groups, now, net, stale);
    GroupsReport(state, rule, groups, now, net, |groups|);
    assert groups[..|groups|] == groups;
    StaleReport(state, rule, groups, now, net);
    forall key ensures Notifies(state, rule, groups, now, net, key) ==> key in own || key in stale {
      StaleNotifies(state, rule, groups, now, net, key);
    }
    hide Notifies, AfterGroups, Stale, KeysOf, SentForGroups, SentForStale, GroupNames, DistinctGroups;
    notified := a + b;
    assert a <= own && a !! b && |notified| == |a| + |b|;
  }
}
