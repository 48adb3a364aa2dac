/**
 * The side condition of the last two files is exact. When an idle session is forgotten before its bucket
 * is full again, there is a run in which the prune hands out tokens that nobody earned: more is admitted
 * than burst + rate * length, and a caller sees it.
 */
module PruneExact {
  import opened Common
  import opened TokenBucket
  import opened RateLimit
  import opened PruneInvisible
  import opened Throughput

  const SID := "s"

  function One(now: real): Op {
    DoCheck(now, V4(0), SID, 1)
  }

  function Repeat(k: nat, now: real): seq<Op> {
    if k == 0 then [] else [One(now)] + Repeat(k - 1, now)
  }

  lemma {:induction false} RepeatShape(k: nat, now: real, t: real)
    requires t <= now
    ensures |Repeat(k, now)| == k && forall op :: op in Repeat(k, now) ==> op == One(now)
    ensures Ordered(t, Repeat(k, now)) && EndTime(t, Repeat(k, now)) <= now
    decreases k
  {
    if k > 0 {
      RepeatShape(k - 1, now, now);
    }
  }

  ghost predicate Ready(cfg: Config, s: Limiter, now: real) {
    Inv(cfg, s, now) && (SID in s.sessions || |s.sessions| < cfg.maxTrackedSessions)
  }

  lemma OneStays(cfg: Config, s: Limiter, now: real)
    requires cfg.NonNegative() && Ready(cfg, s, now)
    ensures var s' := Step(cfg, s, One(now));
            && Ready(cfg, s', now) && SID in s'.sessions && s'.sessions[SID].lastSeen == now
            && s'.sessions.Keys == s.sessions.Keys + {SID}
  {
    CheckKeepsInv(cfg, s, now, now, V4(0), SID, 1);
    hide Inv, TryTake;
    SessionLevelDecides(cfg, s, now, V4(0), SID, 1);
    hide Check;
    EarnedMonotone(cfg.sessionPerSec, 0.0, 0.0);
  }

  /** A request of cost 1 that finds a token takes it. */
  lemma OneTakes(cfg: Config, s: Limiter, now: real)
    requires cfg.NonNegative() && Ready(cfg, s, now) && Tokens(cfg, s, SID, now) >= 1.0
    ensures var s' := Step(cfg, s, One(now));
            && Spent(cfg, s, One(now), SID) == 1.0
            && Tokens(cfg, s', SID, now) == Tokens(cfg, s, SID, now) - 1.0
            && Ready(cfg, s', now) && SID in s'.sessions && s'.sessions[SID].lastSeen == now
            && s'.sessions.Keys == s.sessions.Keys + {SID}
  {
    OneStays(cfg, s, now);
    StepSpends(cfg, s, One(now), SID);
    hide Step, Check;
    assert Spent(cfg, s, One(now), SID) == 1.0 by {
      EarnedMonotone(cfg.sessionPerSec, 0.0, 0.0);
      SessionLevelDecides(cfg, s, now, V4(0), SID, 1);
    }
  }

  lemma RepeatStep(cfg: Config, s: Limiter, k: nat, now: real)
    requires k > 0
    ensures var s' := Step(cfg, s, One(now));
            && Run(cfg, s, Repeat(k, now)) == Run(cfg, s', Repeat(k - 1, now))
            && Admitted(cfg, s, Repeat(k, now), SID)
               == Spent(cfg, s, One(now), SID) + Admitted(cfg, s', Repeat(k - 1, now), SID)
  {
    hide Admitted, Spent, Step, One;
    var ops := Repeat(k, now);
    assert ops[0] == One(now) && ops[1..] == Repeat(k - 1, now);
    AdmittedStep(cfg, s, ops, SID);
  }

  lemma {:induction false} Drain(cfg: Config, s: Limiter, k: nat, now: real)
    requires cfg.NonNegative() && Ready(cfg, s, now) && Tokens(cfg, s, SID, now) >= k as real
    ensures var s' := Run(cfg, s, Repeat(k, now));
            && Admitted(cfg, s, Repeat(k, now), SID) == k as real
            && Tokens(cfg, s', SID, now) == Tokens(cfg, s, SID, now) - k as real
            && Ready(cfg, s', now)
            && (k > 0 ==> SID in s'.sessions && s'.sessions[SID].lastSeen == now)
            && (k == 0 ==> s' == s)
            && s'.sessions.Keys <= s.sessions.Keys + {SID}
    decreases k
  {
    if k > 0 {
      hide Admitted, Tokens, Spent, Step, Ready, Run, Repeat, One;
      OneTakes(cfg, s, now);
      RepeatStep(cfg, s, k, now);
      Drain(cfg, Step(cfg, s, One(now)), k - 1, now);
    } else {
      hide Tokens, Ready;
      assert Admitted(cfg, s, [], SID) == 0.0;
    }
  }

  /** Admitted costs of consecutive parts of a run add up. */
  lemma {:induction false} AdmittedSplit(cfg: Config, s: Limiter, a: seq<Op>, b: seq<Op>, sid: string)
    ensures Admitted(cfg, s, a + b, sid) == Admitted(cfg, s, a, sid) + Admitted(cfg, Run(cfg, s, a), b, sid)
    decreases |a|
  {
    if a == [] {
      assert a + b == b;
      assert Admitted(cfg, s, [], sid) == 0.0;
    } else {
      hide Admitted, Spent, Step;
      assert (a + b)[1..] == a[1..] + b && (a + b)[0] == a[0];
      AdmittedStep(cfg, s, a + b, sid);
      AdmittedStep(cfg, s, a, sid);
      AdmittedSplit(cfg, Step(cfg, s, a[0]), a[1..], b, sid);
    }
  }

  // ---------------------------------------------------------------- one period: empty a full bucket

  function Whole(cfg: Config): nat
    requires cfg.sessionBurst >= 1.0
    ensures 1 <= Whole(cfg) && Whole(cfg) as real <= cfg.sessionBurst < Whole(cfg) as real + 1.0
  {
    cfg.sessionBurst.Floor
  }

  /** How long the fraction left in a bucket takes to become a whole token. */
  function Pause(cfg: Config): (dt: real)
    requires cfg.sessionBurst >= 1.0
  {
    if cfg.sessionPerSec > 0.0 then (Whole(cfg) as real + 1.0 - cfg.sessionBurst) / cfg.sessionPerSec else 0.0
  }

  function Gain(cfg: Config): nat {
    if cfg.sessionPerSec > 0.0 then 1 else 0
  }

  lemma PauseEarns(cfg: Config)
    requires cfg.NonNegative() && cfg.sessionBurst >= 1.0
    ensures Pause(cfg) >= 0.0
    ensures Earned(cfg.sessionPerSec, Pause(cfg)) == Gain(cfg) as real * (Whole(cfg) as real + 1.0 - cfg.sessionBurst)
  {
  }

  function Period(cfg: Config, now: real): seq<Op>
    requires cfg.sessionBurst >= 1.0
  {
    Repeat(Whole(cfg), now) + Repeat(Gain(cfg), now + Pause(cfg))
  }

  lemma PeriodShape(cfg: Config, now: real, t: real)
    requires cfg.NonNegative() && cfg.sessionBurst >= 1.0 && t <= now
    ensures forall op :: op in Period(cfg, now) ==> op == One(now) || op == One(now + Pause(cfg))
    ensures Ordered(t, Period(cfg, now)) && EndTime(t, Period(cfg, now)) <= now + Pause(cfg)
  {
    PauseEarns(cfg);
    var a, b := Repeat(Whole(cfg), now), Repeat(Gain(cfg), now + Pause(cfg));
    RepeatShape(Whole(cfg), now, t);
    RepeatShape(Gain(cfg), now + Pause(cfg), EndTime(t, a));
    OrderedSplit(t, a, b);
  }

  /** After the burst, the fraction that is left becomes a token during the pause. */
  lemma TokenAfterPause(cfg: Config, s: Limiter, now: real)
    requires cfg.NonNegative() && cfg.sessionBurst >= 1.0 && cfg.sessionPerSec > 0.0
    requires Inv(cfg, s, now) && SID in s.sessions && s.sessions[SID].lastSeen == now
    requires Tokens(cfg, s, SID, now) == cfg.sessionBurst - Whole(cfg) as real
    ensures Tokens(cfg, s, SID, now + Pause(cfg)) == 1.0
  {
    PauseEarns(cfg);
    EarnedMonotone(cfg.sessionPerSec, 0.0, 0.0);
    assert s.sessions[SID].bucket.last == now;
    assert Elapsed(now, now + Pause(cfg)) == Pause(cfg);
  }

  lemma PeriodAdmits(cfg: Config, s: Limiter, now: real)
    requires cfg.NonNegative() && cfg.sessionBurst >= 1.0
    requires Ready(cfg, s, now) && Tokens(cfg, s, SID, now) == cfg.sessionBurst
    ensures var s' := Run(cfg, s, Period(cfg, now));
            && Admitted(cfg, s, Period(cfg, now), SID) == (Whole(cfg) + Gain(cfg)) as real
            && Inv(cfg, s', now + Pause(cfg))
            && SID in s'.sessions && s'.sessions[SID].lastSeen == now + Pause(cfg)
            && s'.sessions.Keys <= s.sessions.Keys + {SID}
  {
    hide Admitted, Tokens, Inv, Run, Repeat;
    PauseEarns(cfg);
    var a, b := Repeat(Whole(cfg), now), Repeat(Gain(cfg), now + Pause(cfg));
    var mid := Run(cfg, s, a);
    Drain(cfg, s, Whole(cfg), now);
    AdmittedSplit(cfg, s, a, b, SID);
    RunSplit(cfg, s, a, b);
    InvLater(cfg, mid, now, now + Pause(cfg));
    if cfg.sessionPerSec > 0.0 {
      TokenAfterPause(cfg, mid, now);
    } else {
      assert Tokens(cfg, mid, SID, now + Pause(cfg)) >= 0.0 by {
        TokensGrow(cfg, mid, SID, now, now + Pause(cfg));
      }
    }
    Drain(cfg, mid, Gain(cfg), now + Pause(cfg));
  }

  // ---------------------------------------------------------------- two periods with a prune between

  /** Empty the bucket, stay idle until the session is forgotten, empty the new bucket. */
  function Witness(cfg: Config): seq<Op>
    requires cfg.sessionBurst >= 1.0
  {
    var idle := Pause(cfg) + cfg.SessionTtl();
    Period(cfg, 0.0) + [DoPrune(idle)] + Period(cfg, idle)
  }

  function WitnessEnd(cfg: Config): real
    requires cfg.sessionBurst >= 1.0
  {
    Pause(cfg) + cfg.SessionTtl() + Pause(cfg)
  }

  lemma WitnessShape(cfg: Config)
    requires cfg.NonNegative() && cfg.sessionBurst >= 1.0
    ensures Ordered(0.0, Witness(cfg)) && EndTime(0.0, Witness(cfg)) <= WitnessEnd(cfg)
    ensures forall op :: op in Witness(cfg) && op.DoCheck? ==> op.sid == SID && op.ip == V4(0)
  {
    var idle := Pause(cfg) + cfg.SessionTtl();
    var a, p, b := Period(cfg, 0.0), [DoPrune(idle)], Period(cfg, idle);
    PauseEarns(cfg);
    PeriodShape(cfg, 0.0, 0.0);
    PeriodShape(cfg, idle, idle);
    OrderedSplit(0.0, a, p);
    OrderedSplit(0.0, a + p, b);
  }

  lemma WitnessAdmits(cfg: Config)
    requires cfg.NonNegative() && cfg.sessionBurst >= 1.0 && cfg.maxTrackedSessions >= 1
    ensures Admitted(cfg, New(cfg, 0.0), Witness(cfg), SID) == 2.0 * (Whole(cfg) + Gain(cfg)) as real
  {
    hide Admitted, Run, Prune, Period, Pause, Whole, Gain;
    var start, idle := New(cfg, 0.0), Pause(cfg) + cfg.SessionTtl();
    var a, p, b := Period(cfg, 0.0), [DoPrune(idle)], Period(cfg, idle);
    StartsReady(cfg);
    PeriodAdmits(cfg, start, 0.0);
    var drained := Run(cfg, start, a);
    ForgottenAfterTtl(cfg, drained, Pause(cfg));
    PeriodAdmits(cfg, Prune(cfg, drained, idle), idle);
    PruneAdmitsNothing(cfg, drained, idle);
    AdmittedSplit(cfg, start, a, p, SID);
    AdmittedSplit(cfg, start, a + p, b, SID);
    RunSplit(cfg, start, a, p);
  }

  lemma StartsReady(cfg: Config)
    requires cfg.NonNegative() && cfg.maxTrackedSessions >= 1
    ensures Ready(cfg, New(cfg, 0.0), 0.0) && Tokens(cfg, New(cfg, 0.0), SID, 0.0) == cfg.sessionBurst
    ensures New(cfg, 0.0).sessions.Keys == {}
  {
  }

  lemma PruneAdmitsNothing(cfg: Config, s: Limiter, now: real)
    ensures Admitted(cfg, s, [DoPrune(now)], SID) == 0.0
    ensures Run(cfg, s, [DoPrune(now)]) == Prune(cfg, s, now)
  {
    var p := [DoPrune(now)];
    assert p[1..] == [];
    AdmittedStep(cfg, s, p, SID);
    assert Admitted(cfg, Prune(cfg, s, now), [], SID) == 0.0;
  }

  lemma ForgottenAfterTtl(cfg: Config, s: Limiter, t: real)
    requires cfg.NonNegative() && cfg.maxTrackedSessions >= 1 && Inv(cfg, s, t)
    requires s.sessions.Keys <= {SID} && SID in s.sessions && s.sessions[SID].lastSeen == t
    ensures var now := t + cfg.SessionTtl();
            && Ready(cfg, Prune(cfg, s, now), now)
            && Prune(cfg, s, now).sessions == map[]
            && Tokens(cfg, Prune(cfg, s, now), SID, now) == cfg.sessionBurst
  {
    var now := t + cfg.SessionTtl();
    assert PruneSessions(cfg, s.sessions, now) == map[];
    assert Inv(cfg, Prune(cfg, s, now), now) by {
      PruneKeepsInv(cfg, s, t, now);
    }
    hide Inv, PruneIps;
  }

  /** What the witness admits is more than its burst and its time could pay for. */
  lemma WitnessExceeds(cfg: Config)
    requires cfg.NonNegative() && cfg.maxTrackedSessions >= 1 && !RefillsBeforeTtl(cfg)
    ensures Admitted(cfg, New(cfg, 0.0), Witness(cfg), SID)
          > cfg.sessionBurst + Earned(cfg.sessionPerSec, WitnessEnd(cfg))
  {
    EarnedIs(cfg.sessionPerSec, cfg.SessionTtl());
    hide Admitted, Earned;
    WitnessAdmits(cfg);
    PauseEarns(cfg);
    EarnedSum(cfg.sessionPerSec, Pause(cfg), cfg.SessionTtl());
    EarnedSum(cfg.sessionPerSec, Pause(cfg) + cfg.SessionTtl(), Pause(cfg));
    if cfg.sessionPerSec == 0.0 {
      NothingEarned(cfg.SessionTtl());
    }
  }

  lemma NothingLost(rate: real, secs: real)
    requires rate >= 0.0 && secs >= 0.0
    ensures secs * rate >= 0.0
  {
  }

  lemma NothingEarned(secs: real)
    ensures Earned(0.0, secs) == 0.0
  {
  }

  // ---------------------------------------------------------------- the two exact statements

  /** In all runs below capacity, no caller can tell what was forgotten, and when. */
  ghost predicate PruneInvisibleInAllRuns(cfg: Config) {
    forall t: real, a: seq<Op>, b: seq<Op> ::
      Ordered(t, a) && Ordered(t, b) && Checks(a) == Checks(b)
      && BelowCapacity(cfg, New(cfg, t), a) && BelowCapacity(cfg, New(cfg, t), b) ==>
        Decisions(cfg, New(cfg, t), a) == Decisions(cfg, New(cfg, t), b)
  }

  /** In every interval of every run, no session gets more than burst + rate * length past its level. */
  ghost predicate SessionsBoundedInAllRuns(cfg: Config) {
    forall t0: real, pre: seq<Op>, mid: seq<Op>, t1: real, t2: real, sid: string ::
      During(t0, pre, mid, t1, t2) ==>
        Admitted(cfg, Run(cfg, New(cfg, t0), pre), mid, sid) <= cfg.sessionBurst + (t2 - t1) * cfg.sessionPerSec
  }

  lemma {:induction false} ChecksAreChecks(ops: seq<Op>)
    ensures Checks(Checks(ops)) == Checks(ops) && forall op :: op in Checks(ops) ==> op.DoCheck? && op in ops
    decreases |ops|
  {
    if ops != [] {
      ChecksAreChecks(ops[1..]);
      if ops[0].DoCheck? {
        assert Checks(ops)[1..] == Checks(ops[1..]);
      }
    }
  }

  lemma {:induction false} ChecksOrdered(t: real, ops: seq<Op>, end: real)
    requires Ordered(t, ops) && EndTime(t, ops) <= end
    ensures Ordered(t, Checks(ops)) && EndTime(t, Checks(ops)) <= end
    decreases |ops|
  {
    if ops == [] {
    } else if ops[0].DoPrune? {
      ChecksOrdered(ops[0].now, ops[1..], end);
      var rest := Checks(ops[1..]);
      OrderedEarlier(t, ops[0].now, rest);
      OrderedEnd(ops[0].now, ops[1..]);
    } else {
      ChecksOrdered(ops[0].now, ops[1..], end);
      assert Checks(ops)[1..] == Checks(ops[1..]);
      OrderedEnd(ops[0].now, ops[1..]);
    }
  }

  lemma OrderedEarlier(t: real, t': real, ops: seq<Op>)
    requires t <= t' && Ordered(t', ops)
    ensures Ordered(t, ops)
  {
  }

  /** Without prunes the bound always holds, so a run that exceeds it must have answered differently. */
  lemma ExcessIsVisible(cfg: Config, ops: seq<Op>, end: real, sid: string)
    requires cfg.NonNegative() && Ordered(0.0, ops) && EndTime(0.0, ops) <= end
    requires Admitted(cfg, New(cfg, 0.0), ops, sid) > cfg.sessionBurst + Earned(cfg.sessionPerSec, end)
    ensures Decisions(cfg, New(cfg, 0.0), ops) != Decisions(cfg, New(cfg, 0.0), Checks(ops))
  {
    var start, cs := New(cfg, 0.0), Checks(ops);
    NewInv(cfg, 0.0);
    ChecksAreChecks(ops);
    ChecksOrdered(0.0, ops, end);
    SessionLedger(cfg, start, 0.0, cs, sid, end);
    OneDecisionPerCheck(cfg, start, ops);
    OneDecisionPerCheck(cfg, start, cs);
  }

  // A limiter that tracks no session refuses everything, whatever the rates.

  /** A step of such a limiter. */
  lemma NobodyEnters(cfg: Config, s: Limiter, op: Op)
    requires cfg.maxTrackedSessions == 0 && s.sessions == map[]
    ensures Step(cfg, s, op).sessions == map[] && (op.DoCheck? ==> !FindsRoom(cfg, s, op))
    ensures forall sid :: Spent(cfg, s, op, sid) == 0.0
  {
    if op.DoCheck? {
      SessionLevelDecides(cfg, s, op.now, op.ip, op.sid, op.n);
    }
    hide Check;
  }

  lemma {:induction false} NobodyFits(cfg: Config, s: Limiter, ops: seq<Op>)
    requires cfg.maxTrackedSessions == 0 && s.sessions == map[] && BelowCapacity(cfg, s, ops)
    ensures Checks(ops) == []
    decreases |ops|
  {
    if ops != [] {
      NobodyEnters(cfg, s, ops[0]);
      hide Step, FindsRoom;
      NobodyFits(cfg, Step(cfg, s, ops[0]), ops[1..]);
    }
  }

  lemma {:induction false} NobodyPasses(cfg: Config, s: Limiter, ops: seq<Op>, sid: string)
    requires cfg.maxTrackedSessions == 0 && s.sessions == map[]
    ensures Admitted(cfg, s, ops, sid) == 0.0 && Run(cfg, s, ops).sessions == map[]
    decreases |ops|
  {
    if ops == [] {
      assert Admitted(cfg, s, [], sid) == 0.0;
    } else {
      NobodyEnters(cfg, s, ops[0]);
      hide Step, Admitted, Spent;
      AdmittedStep(cfg, s, ops, sid);
      NobodyPasses(cfg, Step(cfg, s, ops[0]), ops[1..], sid);
    }
  }

  lemma NobodyNotices(cfg: Config)
    requires cfg.maxTrackedSessions == 0
    ensures PruneInvisibleInAllRuns(cfg)
  {
    forall t: real, a: seq<Op>, b: seq<Op>
      | Ordered(t, a) && Ordered(t, b) && Checks(a) == Checks(b)
        && BelowCapacity(cfg, New(cfg, t), a) && BelowCapacity(cfg, New(cfg, t), b)
      ensures Decisions(cfg, New(cfg, t), a) == Decisions(cfg, New(cfg, t), b)
    {
      NobodyFits(cfg, New(cfg, t), a);
      NobodyFits(cfg, New(cfg, t), b);
      OneDecisionPerCheck(cfg, New(cfg, t), a);
      OneDecisionPerCheck(cfg, New(cfg, t), b);
    }
  }

  lemma NobodyExceeds(cfg: Config)
    requires cfg.NonNegative() && cfg.maxTrackedSessions == 0
    ensures SessionsBoundedInAllRuns(cfg)
  {
    forall t0: real, pre: seq<Op>, mid: seq<Op>, t1: real, t2: real, sid: string | During(t0, pre, mid, t1, t2)
      ensures Admitted(cfg, Run(cfg, New(cfg, t0), pre), mid, sid)
           <= cfg.sessionBurst + (t2 - t1) * cfg.sessionPerSec
    {
      NobodyPasses(cfg, New(cfg, t0), pre, sid);
      NobodyPasses(cfg, Run(cfg, New(cfg, t0), pre), mid, sid);
      OrderedEnd(t1, mid);
      NothingLost(cfg.sessionPerSec, t2 - t1);
      hide Admitted, Run;
    }
  }

  /** A caller sees the prune of the witness. */
  lemma WitnessIsVisible(cfg: Config)
    requires cfg.NonNegative() && cfg.maxTrackedSessions >= 1 && !RefillsBeforeTtl(cfg)
    ensures !PruneInvisibleInAllRuns(cfg)
  {
    var ops := Witness(cfg);
    WitnessShape(cfg);
    ChecksAreChecks(ops);
    ChecksOrdered(0.0, ops, WitnessEnd(cfg));
    OneSessionFits(cfg, New(cfg, 0.0), ops);
    OneSessionFits(cfg, New(cfg, 0.0), Checks(ops));
    WitnessExceeds(cfg);
    hide RefillsBeforeTtl, BelowCapacity, Decisions, Ordered, Checks, Admitted, WitnessEnd, Witness, New, Earned;
    ExcessIsVisible(cfg, ops, WitnessEnd(cfg), SID);
  }

  lemma PruneInvisibleExactly(cfg: Config)
    requires cfg.NonNegative()
    ensures PruneInvisibleInAllRuns(cfg) <==> RefillsBeforeTtl(cfg) || cfg.maxTrackedSessions == 0
  {
    hide RefillsBeforeTtl, BelowCapacity, Decisions, Ordered, Checks, Admitted;
    if cfg.maxTrackedSessions == 0 {
      NobodyNotices(cfg);
    } else if RefillsBeforeTtl(cfg) {
      forall t: real, a: seq<Op>, b: seq<Op>
        | Ordered(t, a) && Ordered(t, b) && Checks(a) == Checks(b)
          && BelowCapacity(cfg, New(cfg, t), a) && BelowCapacity(cfg, New(cfg, t), b)
        ensures Decisions(cfg, New(cfg, t), a) == Decisions(cfg, New(cfg, t), b)
      {
        PruneIsInvisible(cfg, t, a, b);
      }
    } else {
      WitnessIsVisible(cfg);
    }
  }

  /** A run about a single session from an unknown address never meets a full map. */
  lemma {:induction false} OneSessionFits(cfg: Config, s: Limiter, ops: seq<Op>)
    requires cfg.maxTrackedSessions >= 1 && s.sessions.Keys <= {SID}
    requires forall i :: 0 <= i < |ops| && ops[i].DoCheck? ==> ops[i].sid == SID && ops[i].ip == V4(0)
    ensures BelowCapacity(cfg, s, ops)
    decreases |ops|
  {
    if ops != [] {
      OneSession(cfg, s, ops[0]);
      hide Step, FindsRoom;
      OneSessionFits(cfg, Step(cfg, s, ops[0]), ops[1..]);
    }
  }

  lemma OneSession(cfg: Config, s: Limiter, op: Op)
    requires cfg.maxTrackedSessions >= 1 && s.sessions.Keys <= {SID}
    requires op.DoCheck? ==> op.sid == SID && op.ip == V4(0)
    ensures FindsRoom(cfg, s, op) && Step(cfg, s, op).sessions.Keys <= {SID}
  {
    SubsetSize(s.sessions.Keys, {SID});
    assert |s.sessions| == |s.sessions.Keys|;
    if SID !in s.sessions {
      assert s.sessions.Keys == {};
    }
    if op.DoCheck? {
      SessionLevelDecides(cfg, s, op.now, op.ip, op.sid, op.n);
      hide Check, TryTake;
    }
  }

  lemma SessionsBoundedExactly(cfg: Config)
    requires cfg.NonNegative()
    ensures SessionsBoundedInAllRuns(cfg) <==> RefillsBeforeTtl(cfg) || cfg.maxTrackedSessions == 0
  {
    if cfg.maxTrackedSessions == 0 {
      NobodyExceeds(cfg);
    } else if RefillsBeforeTtl(cfg) {
      forall t0: real, pre: seq<Op>, mid: seq<Op>, t1: real, t2: real, sid: string | During(t0, pre, mid, t1, t2)
        ensures Admitted(cfg, Run(cfg, New(cfg, t0), pre), mid, sid)
             <= cfg.sessionBurst + (t2 - t1) * cfg.sessionPerSec
      {
        SessionThroughput(cfg, t0, pre, mid, t1, t2, sid);
      }
    } else {
      WitnessShape(cfg);
      WitnessExceeds(cfg);
      EarnedIs(cfg.sessionPerSec, WitnessEnd(cfg));
      assert During(0.0, [], Witness(cfg), 0.0, WitnessEnd(cfg));
      assert Run(cfg, New(cfg, 0.0), []) == New(cfg, 0.0);
    }
  }
}
