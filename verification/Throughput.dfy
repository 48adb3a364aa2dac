/**
 * Over every interval of every run, the events a session gets past its own level, and those allowed in all,
 * are bounded by burst + rate * length, even though sessions are forgotten and recreated.
 */
module Throughput {
  import opened Common
  import opened TokenBucket
  import opened IpWindow
  import opened RateLimit
  import opened PruneInvisible

  /** The events of a request; one that announces none counts as one. */
  function Units(n: u32): real {
    if n == 0 then 1.0 else n as real
  }

  predicate PassedSession(d: Decision) {
    d.Allow? || d.scope != SessionScope
  }

  /** The events of the checks of `sid` that got past the session level. */
  ghost function AdmittedCost(checks: seq<Op>, ds: seq<Decision>, sid: string): real
    requires |checks| == |ds| && forall op :: op in checks ==> op.DoCheck?
  {
    if checks == [] then 0.0
    else
      (if checks[0].sid == sid && PassedSession(ds[0]) then Units(checks[0].n) else 0.0)
      + AdmittedCost(checks[1..], ds[1..], sid)
  }

  /** The events of the checks that were allowed. */
  ghost function AllowedCost(checks: seq<Op>, ds: seq<Decision>): real
    requires |checks| == |ds| && forall op :: op in checks ==> op.DoCheck?
  {
    if checks == [] then 0.0
    else (if ds[0].Allow? then Units(checks[0].n) else 0.0) + AllowedCost(checks[1..], ds[1..])
  }

  lemma {:induction false} OneDecisionPerCheck(cfg: Config, s: Limiter, ops: seq<Op>)
    ensures |Decisions(cfg, s, ops)| == |Checks(ops)|
    ensures forall op :: op in Checks(ops) ==> op.DoCheck?
    decreases |ops|
  {
    if ops != [] {
      OneDecisionPerCheck(cfg, Step(cfg, s, ops[0]), ops[1..]);
    }
  }

  ghost function Admitted(cfg: Config, s: Limiter, ops: seq<Op>, sid: string): real {
    OneDecisionPerCheck(cfg, s, ops);
    AdmittedCost(Checks(ops), Decisions(cfg, s, ops), sid)
  }

  ghost function Allowed(cfg: Config, s: Limiter, ops: seq<Op>): real {
    OneDecisionPerCheck(cfg, s, ops);
    AllowedCost(Checks(ops), Decisions(cfg, s, ops))
  }

  ghost function Spent(cfg: Config, s: Limiter, op: Op, sid: string): real {
    if op.DoCheck? && op.sid == sid && PassedSession(Check(cfg, s, op.now, op.ip, op.sid, op.n).1)
    then Units(op.n) else 0.0
  }

  lemma AdmittedStep(cfg: Config, s: Limiter, ops: seq<Op>, sid: string)
    requires ops != []
    ensures Admitted(cfg, s, ops, sid)
         == Spent(cfg, s, ops[0], sid) + Admitted(cfg, Step(cfg, s, ops[0]), ops[1..], sid)
  {
    hide SessionLevel, IpLevel, TryTake;
    OneDecisionPerCheck(cfg, s, ops);
    OneDecisionPerCheck(cfg, Step(cfg, s, ops[0]), ops[1..]);
    var cs, ds := Checks(ops), Decisions(cfg, s, ops);
    if ops[0].DoCheck? {
      assert cs[1..] == Checks(ops[1..]) && ds[1..] == Decisions(cfg, Step(cfg, s, ops[0]), ops[1..]);
    }
  }

  /** The tokens a session could spend at `now`; a forgotten session could spend a full bucket. */
  ghost function Tokens(cfg: Config, s: Limiter, sid: string, now: real): real {
    if sid in s.sessions then Refill(s.sessions[sid].bucket, cfg.sessionPerSec, cfg.sessionBurst, now).tokens
    else cfg.sessionBurst
  }

  lemma TokensGrow(cfg: Config, s: Limiter, sid: string, t: real, now: real)
    requires cfg.NonNegative() && SessionsInv(cfg, s.sessions, t) && t <= now
    ensures 0.0 <= Tokens(cfg, s, sid, now) <= cfg.sessionBurst
    ensures Tokens(cfg, s, sid, now) <= Tokens(cfg, s, sid, t) + Earned(cfg.sessionPerSec, now - t)
  {
    EarnedMonotone(cfg.sessionPerSec, 0.0, now - t);
    if sid in s.sessions {
      var b := s.sessions[sid].bucket;
      RefillGrows(b, cfg.sessionPerSec, cfg.sessionBurst, t, now);
      EarnedMonotone(cfg.sessionPerSec, 0.0, now - b.last);
    }
  }

  lemma SessionLevelDecides(cfg: Config, s: Limiter, now: real, ip: Ip, sid: string, n: u32)
    ensures PassedSession(Check(cfg, s, now, ip, sid, n).1) <==> SessionLevel(cfg, s.sessions, now, sid, n).1.None?
    ensures Check(cfg, s, now, ip, sid, n).0.sessions == SessionLevel(cfg, s.sessions, now, sid, n).0
  {
    hide TryTake, Recorded;
  }

  /** A check spends exactly the cost it is admitted for; a prune spends nothing, provided idle sessions refill. */
  lemma StepSpends(cfg: Config, s: Limiter, op: Op, sid: string)
    requires cfg.NonNegative() && SessionsInv(cfg, s.sessions, op.now)
    requires op.DoCheck? || RefillsBeforeTtl(cfg)
    ensures Tokens(cfg, Step(cfg, s, op), sid, op.now) == Tokens(cfg, s, sid, op.now) - Spent(cfg, s, op, sid)
  {
    if op.DoCheck? {
      SessionLevelDecides(cfg, s, op.now, op.ip, op.sid, op.n);
      TakeKeepsInv(BucketOf(cfg, s.sessions, op.sid, op.now), cfg.sessionPerSec, cfg.sessionBurst, Cost(op.n),
                   op.now, op.now);
    } else if sid in s.sessions && sid !in Prune(cfg, s, op.now).sessions {
      IdleIsFull(cfg, s.sessions[sid], op.now);
    }
  }

  /** The potential argument: what is admitted is paid from the bucket and from what time earns. */
  lemma {:induction false} SessionLedger(cfg: Config, s: Limiter, t: real, ops: seq<Op>, sid: string, end: real)
    requires cfg.NonNegative() && Inv(cfg, s, t) && Ordered(t, ops) && EndTime(t, ops) <= end
    requires RefillsBeforeTtl(cfg) || forall op :: op in ops ==> op.DoCheck?
    ensures Admitted(cfg, s, ops, sid) <= Tokens(cfg, s, sid, t) + Earned(cfg.sessionPerSec, end - t)
    decreases |ops|
  {
    if ops == [] {
      EarnedMonotone(cfg.sessionPerSec, 0.0, end - t);
      TokensGrow(cfg, s, sid, t, t);
    } else {
      hide Earned, Tokens, Admitted, Spent, Step, Inv;
      var op, rest := ops[0], ops[1..];
      var s' := Step(cfg, s, op);
      TokensGrow(cfg, s, sid, t, op.now);
      InvLater(cfg, s, t, op.now);
      StepSpends(cfg, s, op, sid);
      StepKeepsInv(cfg, s, t, op);
      OrderedEnd(op.now, rest);
      SessionLedger(cfg, s', op.now, rest, sid, end);
      AdmittedStep(cfg, s, ops, sid);
      EarnedSum(cfg.sessionPerSec, op.now - t, end - op.now);
    }
  }

  lemma NewInv(cfg: Config, t: real)
    requires cfg.NonNegative()
    ensures Inv(cfg, New(cfg, t), t)
  {
  }

  /** The operations `mid`, all of them in [t1, t2], after any earlier part of a run. */
  ghost predicate During(t0: real, pre: seq<Op>, mid: seq<Op>, t1: real, t2: real) {
    Ordered(t0, pre) && EndTime(t0, pre) <= t1 && Ordered(t1, mid) && EndTime(t1, mid) <= t2
  }

  /** Per session: at most burst + rate * length, in every interval of every run, prunes included. */
  lemma SessionThroughput(cfg: Config, t0: real, pre: seq<Op>, mid: seq<Op>, t1: real, t2: real, sid: string)
    requires cfg.NonNegative() && RefillsBeforeTtl(cfg) && During(t0, pre, mid, t1, t2)
    ensures Admitted(cfg, Run(cfg, New(cfg, t0), pre), mid, sid)
         <= cfg.sessionBurst + (t2 - t1) * cfg.sessionPerSec
  {
    EarnedIs(cfg.sessionPerSec, t2 - t1);
    hide Earned, Admitted, Allowed, Run;
    var s := Run(cfg, New(cfg, t0), pre);
    NewInv(cfg, t0);
    RunKeepsInv(cfg, New(cfg, t0), t0, pre);
    InvLater(cfg, s, EndTime(t0, pre), t1);
    SessionLedger(cfg, s, t1, mid, sid, t2);
    TokensGrow(cfg, s, sid, t1, t1);
  }

  // ---------------------------------------------------------------- the global bucket

  /** A request refused by its session or by its IP costs the global bucket nothing. */
  lemma FinerDenialsSpareGlobal(cfg: Config, s: Limiter, now: real, ip: Ip, sid: string, n: u32)
    ensures var (s', d) := Check(cfg, s, now, ip, sid, n);
            if d.Deny? && d.scope != GlobalScope then s'.global == s.global
            else s'.global == TryTake(s.global, cfg.globalPerSec, cfg.globalBurst, Units(n), now).0
                 && (d.Allow? <==> TryTake(s.global, cfg.globalPerSec, cfg.globalBurst, Units(n), now).1.Taken?)
  {
    hide TryTake, Recorded;
  }

  ghost function GlobalTokens(cfg: Config, s: Limiter, now: real): real {
    Refill(s.global, cfg.globalPerSec, cfg.globalBurst, now).tokens
  }

  ghost function GlobalSpent(cfg: Config, s: Limiter, op: Op): real {
    if op.DoCheck? && Check(cfg, s, op.now, op.ip, op.sid, op.n).1.Allow? then Units(op.n) else 0.0
  }

  lemma AllowedStep(cfg: Config, s: Limiter, ops: seq<Op>)
    requires ops != []
    ensures Allowed(cfg, s, ops) == GlobalSpent(cfg, s, ops[0]) + Allowed(cfg, Step(cfg, s, ops[0]), ops[1..])
  {
    hide SessionLevel, IpLevel, TryTake;
    OneDecisionPerCheck(cfg, s, ops);
    OneDecisionPerCheck(cfg, Step(cfg, s, ops[0]), ops[1..]);
    var cs, ds := Checks(ops), Decisions(cfg, s, ops);
    if ops[0].DoCheck? {
      assert cs[1..] == Checks(ops[1..]) && ds[1..] == Decisions(cfg, Step(cfg, s, ops[0]), ops[1..]);
    }
  }

  lemma GlobalGrow(cfg: Config, s: Limiter, t: real, now: real)
    requires cfg.NonNegative() && BucketInv(s.global, cfg.globalBurst, t) && t <= now
    ensures 0.0 <= GlobalTokens(cfg, s, now) <= cfg.globalBurst
    ensures GlobalTokens(cfg, s, now) <= GlobalTokens(cfg, s, t) + Earned(cfg.globalPerSec, now - t)
  {
    RefillGrows(s.global, cfg.globalPerSec, cfg.globalBurst, t, now);
    EarnedMonotone(cfg.globalPerSec, 0.0, now - s.global.last);
  }

  lemma GlobalStepSpends(cfg: Config, s: Limiter, op: Op)
    requires cfg.NonNegative() && BucketInv(s.global, cfg.globalBurst, op.now)
    ensures GlobalTokens(cfg, Step(cfg, s, op), op.now) == GlobalTokens(cfg, s, op.now) - GlobalSpent(cfg, s, op)
  {
    if op.DoCheck? {
      FinerDenialsSpareGlobal(cfg, s, op.now, op.ip, op.sid, op.n);
      TakeKeepsInv(s.global, cfg.globalPerSec, cfg.globalBurst, Cost(op.n), op.now, op.now);
    }
  }

  lemma {:induction false} GlobalLedger(cfg: Config, s: Limiter, t: real, ops: seq<Op>, end: real)
    requires cfg.NonNegative() && Inv(cfg, s, t) && Ordered(t, ops) && EndTime(t, ops) <= end
    ensures Allowed(cfg, s, ops) <= GlobalTokens(cfg, s, t) + Earned(cfg.globalPerSec, end - t)
    decreases |ops|
  {
    if ops == [] {
      EarnedMonotone(cfg.globalPerSec, 0.0, end - t);
      GlobalGrow(cfg, s, t, t);
    } else {
      hide Earned, GlobalTokens, Allowed, GlobalSpent, Step, Inv;
      var op, rest := ops[0], ops[1..];
      var s' := Step(cfg, s, op);
      GlobalGrow(cfg, s, t, op.now);
      InvLater(cfg, s, t, op.now);
      GlobalStepSpends(cfg, s, op);
      StepKeepsInv(cfg, s, t, op);
      OrderedEnd(op.now, rest);
      GlobalLedger(cfg, s', op.now, rest, end);
      AllowedStep(cfg, s, ops);
      EarnedSum(cfg.globalPerSec, op.now - t, end - op.now);
    }
  }

  /** In all: at most burst + rate * length allowed, whatever the number of sessions and addresses. */
  lemma GlobalThroughput(cfg: Config, t0: real, pre: seq<Op>, mid: seq<Op>, t1: real, t2: real)
    requires cfg.NonNegative() && During(t0, pre, mid, t1, t2)
    ensures Allowed(cfg, Run(cfg, New(cfg, t0), pre), mid) <= cfg.globalBurst + (t2 - t1) * cfg.globalPerSec
  {
    EarnedIs(cfg.globalPerSec, t2 - t1);
    hide Earned, Admitted, Allowed, Run;
    var s := Run(cfg, New(cfg, t0), pre);
    NewInv(cfg, t0);
    RunKeepsInv(cfg, New(cfg, t0), t0, pre);
    InvLater(cfg, s, EndTime(t0, pre), t1);
    GlobalLedger(cfg, s, t1, mid, t2);
    GlobalGrow(cfg, s, t1, t1);
  }
}
