/**
 * The alert engine: one ok/firing state per key, notified at the edges, at most once per cooldown. A scalar or
 * composite rule has one key, its name; a group rule has one key per group, `name::group`. All keys share one map.
 * Instants are nanoseconds. What the notifiers answer is a parameter: for a key, one outcome per notifier.
 */
module Alerts {
  import opened Common

  const SECOND: int := 1_000_000_000

  datatype RuleState = RuleState(firing: bool, lastNotified: Option<int>)

  const Initial := RuleState(false, None)

  type EngineState = map<string, RuleState>

  datatype AlertState = Firing | Resolved

  datatype Comparator = Gt | Gte | Lt | Lte {
    predicate Compare(value: F64, threshold: F64) {
      match this
      case Gt => threshold.Below(value)
      case Gte => threshold.AtMost(value)
      case Lt => value.Below(threshold)
      case Lte => value.AtMost(threshold)
    }
  }

  datatype BoolOp = All | Any

  datatype Condition = Condition(comparator: Comparator, threshold: F64) {
    predicate Met(value: F64) {
      comparator.Compare(value, threshold)
    }
  }

  datatype Rule = Rule(
    name: string,
    comparator: Comparator,
    threshold: F64,
    cooldownSecs: nat,
    op: Option<BoolOp>,
    conditions: seq<Condition>)
  {
    function Prefix(): string {
      name + "::"
    }

    function Key(group: string): string {
      Prefix() + group
    }

    predicate Breaching(value: F64) {
      comparator.Compare(value, threshold)
    }
  }

  function EntryOf(state: EngineState, key: string): RuleState {
    if key in state then state[key] else Initial
  }

  function Edge(firing: bool, breaching: bool): Option<AlertState> {
    if !firing && breaching then Some(Firing)
    else if firing && !breaching then Some(Resolved)
    else None
  }

  predicate CoolingDown(last: Option<int>, cooldownSecs: nat, now: int) {
    last.Some? && Max(now - last.value, 0) < cooldownSecs * SECOND
  }

  /** The entry after one evaluation, and the notification that was sent, if any. */
  function Processed(entry: RuleState, breaching: bool, cooldownSecs: nat, now: int, delivered: bool)
    : (RuleState, Option<AlertState>)
  {
    var edge := Edge(entry.firing, breaching);
    var kept := RuleState(breaching, entry.lastNotified);
    if edge.None? || CoolingDown(entry.lastNotified, cooldownSecs, now) || !delivered then (kept, None)
    else (RuleState(breaching, Some(now)), edge)
  }

  // ---------------------------------------------------------------- one evaluation of a group rule

  type Group = (string, F64)

  function Process(state: EngineState, rule: Rule, key: string, breaching: bool, now: int, net: string -> seq<bool>)
    : (RuleState, Option<AlertState>)
  {
    Processed(EntryOf(state, key), breaching, rule.cooldownSecs, now, true in net(key))
  }

  function AfterGroups(state: EngineState, rule: Rule, groups: seq<Group>, now: int, net: string -> seq<bool>)
    : EngineState
  {
    if groups == [] then state
    else
      var before, g := AfterGroups(state, rule, groups[..|groups| - 1], now, net), groups[|groups| - 1];
      before[rule.Key(g.0) := Process(before, rule, rule.Key(g.0), rule.Breaching(g.1), now, net).0]
  }

  function SentForGroups(state: EngineState, rule: Rule, groups: seq<Group>, now: int, net: string -> seq<bool>): nat {
    if groups == [] then 0
    else
      var before, g := AfterGroups(state, rule, groups[..|groups| - 1], now, net), groups[|groups| - 1];
      SentForGroups(state, rule, groups[..|groups| - 1], now, net)
      + (if Process(before, rule, rule.Key(g.0), rule.Breaching(g.1), now, net).1.Some? then 1 else 0)
  }

  function GroupNames(groups: seq<Group>): set<string> {
    set g | g in groups :: g.0
  }

  /** The keys of the rule that still fire although their group has left the window. */
  function Stale(state: EngineState, rule: Rule, seen: set<string>): set<string> {
    set k | k in state && state[k].firing && rule.Prefix() <= k && k[|rule.Prefix()|..] !in seen
  }

  function AfterStale(state: EngineState, rule: Rule, stale: set<string>, now: int, net: string -> seq<bool>)
    : EngineState
  {
    map k | k in state :: if k in stale then Process(state, rule, k, false, now, net).0 else state[k]
  }

  function SentForStale(state: EngineState, rule: Rule, stale: set<string>, now: int, net: string -> seq<bool>): nat {
    |set k | k in stale && Process(state, rule, k, false, now, net).1.Some?|
  }

  /** Resolving one more stale key touches that key only. */
  lemma StaleStep(state: EngineState, rule: Rule, done: set<string>, k: string, now: int, net: string -> seq<bool>)
    requires k in state && k !in done
    ensures var before := AfterStale(state, rule, done, now, net);
            var (entry, note) := Process(before, rule, k, false, now, net);
            && before[k := entry] == AfterStale(state, rule, done + {k}, now, net)
            && SentForStale(state, rule, done + {k}, now, net)
               == SentForStale(state, rule, done, now, net) + if note.Some? then 1 else 0
  {
    hide Processed;
    var was := set j | j in done && Process(state, rule, j, false, now, net).1.Some?;
    var all := set j | j in done + {k} && Process(state, rule, j, false, now, net).1.Some?;
    assert all == if Process(state, rule, k, false, now, net).1.Some? then was + {k} else was;
  }

  /** The state after one evaluation of a group rule; a failed computation changes nothing. */
  function AfterGroupRule(state: EngineState, rule: Rule, computed: Option<seq<Group>>, now: int,
                          net: string -> seq<bool>)
    : EngineState
  {
    match computed
    case None => state
    case Some(groups) =>
      var mid := AfterGroups(state, rule, groups, now, net);
      AfterStale(mid, rule, Stale(mid, rule, GroupNames(groups)), now, net)
  }

  function SentForGroupRule(state: EngineState, rule: Rule, computed: Option<seq<Group>>, now: int,
                            net: string -> seq<bool>)
    : nat
  {
    match computed
    case None => 0
    case Some(groups) =>
      var mid := AfterGroups(state, rule, groups, now, net);
      SentForGroups(state, rule, groups, now, net)
      + SentForStale(mid, rule, Stale(mid, rule, GroupNames(groups)), now, net)
  }

  /** `all` needs every condition, `any` needs one; no operator means `all`. */
  ghost predicate CompositeBreaches(rule: Rule, values: seq<F64>)
    requires |values| == |rule.conditions|
  {
    if rule.op == Some(Any) then exists i :: 0 <= i < |values| && rule.conditions[i].Met(values[i])
    else forall i :: 0 <= i < |values| ==> rule.conditions[i].Met(values[i])
  }

  // ---------------------------------------------------------------- the engine as an object

  class AlertEngine {
    var state: EngineState

    constructor ()
      ensures state == map[]
    {
      state := map[];
    }

    /** Sends through every notifier; true when at least one of them took it. */
    method SendAll(outcomes: seq<bool>) returns (anySent: bool)
      ensures anySent <==> true in outcomes
    {
      anySent := false;
      for i := 0 to |outcomes|
        invariant anySent <==> true in outcomes[..i]
      {
        if outcomes[i] {
          anySent := true;
        }
      }
      assert outcomes[..|outcomes|] == outcomes;
    }

    method ProcessTransition(key: string, breaching: bool, rule: Rule, net: string -> seq<bool>, now: int)
      returns (sent: bool)
      modifies this
      ensures var (entry, note) := Process(old(state), rule, key, breaching, now, net);
              state == old(state)[key := entry] && sent == note.Some?
    {
      var entry := if key in state then state[key] else Initial;
      var edge := match (entry.firing, breaching)
        case (false, true) => Some(Firing)
        case (true, false) => Some(Resolved)
        case _ => None;
      entry := entry.(firing := breaching);
      state := state[key := entry];
      if edge.None? {
        return false;
      }
      if entry.lastNotified.Some? {
        var elapsed := Max(now - entry.lastNotified.value, 0);
        if elapsed < rule.cooldownSecs * SECOND {
          return false;
        }
      }
      sent := SendAll(net(key));
      if sent {
        state := state[key := entry.(lastNotified := Some(now))];
      }
    }

    method EvaluateGroupRule(rule: Rule, computed: Option<seq<Group>>, net: string -> seq<bool>, now: int)
      returns (notified: nat)
      modifies this
      ensures state == AfterGroupRule(old(state), rule, computed, now, net)
      ensures notified == SentForGroupRule(old(state), rule, computed, now, net)
    {
      hide Process;
      notified := 0;
      if computed.None? {
        return;
      }
      var groups := computed.value;
      var seen: set<string> := {};
      for i := 0 to |groups|
        invariant state == AfterGroups(old(state), rule, groups[..i], now, net)
        invariant notified == SentForGroups(old(state), rule, groups[..i], now, net)
        invariant seen == GroupNames(groups[..i])
      {
        assert groups[..i + 1][..i] == groups[..i];
        var (group, count) := groups[i];
        seen := seen + {group};
        var sent := ProcessTransition(rule.Key(group), rule.Breaching(count), rule, net, now);
        if sent {
          notified := notified + 1;
        }
      }
      assert groups[..|groups|] == groups;
      var more := ResolveStale(rule, seen, net, now);
      notified := notified + more;
    }

    method ResolveStale(rule: Rule, seen: set<string>, net: string -> seq<bool>, now: int) returns (notified: nat)
      modifies this
      ensures state == AfterStale(old(state), rule, Stale(old(state), rule, seen), now, net)
      ensures notified == SentForStale(old(state), rule, Stale(old(state), rule, seen), now, net)
    {
      notified := 0;
      assert AfterStale(state, rule, {}, now, net) == state;
      assert SentForStale(state, rule, {}, now, net) == 0;
      var stale := Stale(state, rule, seen);
      assert stale <= state.Keys;
      hide Process, AfterStale, SentForStale, Stale;
      var todo := stale;
      assert stale - todo == {};
      while todo != {}
        invariant todo <= stale
        invariant state == AfterStale(old(state), rule, stale - todo, now, net)
        invariant notified == SentForStale(old(state), rule, stale - todo, now, net)
        decreases |todo|
      {
        var k :| k in todo;
        StaleStep(old(state), rule, stale - todo, k, now, net);
        var sent := ProcessTransition(k, false, rule, net, now);
        if sent {
          notified := notified + 1;
        }
        assert stale - todo + {k} == stale - (todo - {k});
        todo := todo - {k};
      }
      assert stale - todo == stale;
    }

    /** Combines the conditions of a composite rule; the first one that fails ends the evaluation. */
    method EvaluateCompositeRule(rule: Rule, computed: seq<Option<F64>>, net: string -> seq<bool>, now: int)
      returns (notified: nat)
      requires |computed| == |rule.conditions|
      modifies this
      ensures None in computed ==> state == old(state) && notified == 0
      ensures None !in computed ==>
                var values := seq(|computed|, i requires 0 <= i < |computed| => if computed[i].Some?
                                  then computed[i].value else NaN);
                var (entry, note) := Process(old(state), rule, rule.name, CompositeBreaches(rule, values), now, net);
                state == old(state)[rule.name := entry] && notified == if note.Some? then 1 else 0
    {
      var met := 0;
      for i := 0 to |computed|
        invariant 0 <= met <= i && None !in computed[..i] && state == old(state)
        invariant met == i <==> forall j :: 0 <= j < i ==> rule.conditions[j].Met(computed[j].value)
        invariant met >= 1 <==> exists j :: 0 <= j < i && rule.conditions[j].Met(computed[j].value)
      {
        if computed[i].None? {
          return 0;
        }
        if rule.conditions[i].Met(computed[i].value) {
          met := met + 1;
        }
      }
      assert computed[..|computed|] == computed;
      var op := if rule.op.Some? then rule.op.value else All;
      var breaching := match op
        case All => met == |rule.conditions|
        case Any => met >= 1;
      var sent := ProcessTransition(rule.name, breaching, rule, net, now);
      notified := if sent then 1 else 0;
    }
  }
}
