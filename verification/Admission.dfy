/**
 * The decision of a check, exactly, from what was decided before it: it is refused only when it would break one of
 * the promises. A session is refused when some interval that ends with the check would hold more than burst + rate *
 * length of its events; an address when the cap of other sessions passed within the window; in the end the global
 * bucket when some interval would hold too much in all. The announced delay is the least whole number of seconds.
 */
module Admission {
  import opened Common
  import opened TokenBucket
  import opened IpWindow
  import opened RateLimit
  import opened PruneInvisible
  import opened Throughput
  import opened IpCap

  // ---------------------------------------------------------------- what a check takes

  predicate HasRoom(cfg: Config, s: Limiter, sid: string) {
    sid in s.sessions || |s.sessions| < cfg.maxTrackedSessions
  }

  /** A session passes its level exactly when it holds the units of the check, and then has exactly as many fewer. */
  lemma SessionTakesUnits(cfg: Config, s: Limiter, now: real, ip: Ip, sid: string, n: u32)
    requires cfg.NonNegative() && SessionsInv(cfg, s.sessions, now)
    ensures var (s', d) := Check(cfg, s, now, ip, sid, n);
            && (PassedSession(d) <==> HasRoom(cfg, s, sid) && Tokens(cfg, s, sid, now) >= Units(n))
            && Tokens(cfg, s', sid, now) == Tokens(cfg, s, sid, now) - if PassedSession(d) then Units(n) else 0.0
  {
    SessionLevelDecides(cfg, s, now, ip, sid, n);
    EarnedMonotone(cfg.sessionPerSec, 0.0, 0.0);
    StepSpends(cfg, s, DoCheck(now, ip, sid, n), sid);
    hide Check, Earned;
  }

  /** So does the global bucket, and only for a check that got past the other levels. */
  lemma GlobalTakesUnits(cfg: Config, s: Limiter, now: real, ip: Ip, sid: string, n: u32)
    requires cfg.NonNegative() && BucketInv(s.global, cfg.globalBurst, now)
    ensures var (s', d) := Check(cfg, s, now, ip, sid, n);
            && (d.Allow? <==> PassedIp(d) && GlobalTokens(cfg, s, now) >= Units(n))
            && GlobalTokens(cfg, s', now) == GlobalTokens(cfg, s, now) - if d.Allow? then Units(n) else 0.0
  {
    FinerDenialsSpareGlobal(cfg, s, now, ip, sid, n);
    GlobalStepSpends(cfg, s, DoCheck(now, ip, sid, n));
    hide Check, Earned;
  }

  // ---------------------------------------------------------------- buckets, from the decisions so far

  /** When the operations from the i-th on begin. */
  ghost function Since(ops: seq<Op>, i: nat, now: real): real
    requires i <= |ops|
  {
    if i < |ops| then ops[i].now else now
  }

  /** From the i-th operation up to now, and with c more, the session stays within burst + rate * length. */
  ghost predicate SessionFits(cfg: Config, s: Limiter, ops: seq<Op>, sid: string, now: real, c: real, i: nat)
    requires i <= |ops|
  {
    Admitted(cfg, Run(cfg, s, ops[..i]), ops[i..], sid) + c
    <= cfg.sessionBurst + Earned(cfg.sessionPerSec, now - Since(ops, i, now))
  }

  ghost predicate GlobalFits(cfg: Config, s: Limiter, ops: seq<Op>, now: real, c: real, i: nat)
    requires i <= |ops|
  {
    Allowed(cfg, Run(cfg, s, ops[..i]), ops[i..]) + c
    <= cfg.globalBurst + Earned(cfg.globalPerSec, now - Since(ops, i, now))
  }

  /** Every interval that ends now leaves room for c more. */
  ghost predicate SessionAllFit(cfg: Config, s: Limiter, ops: seq<Op>, sid: string, now: real, c: real) {
    forall i :: 0 <= i <= |ops| ==> SessionFits(cfg, s, ops, sid, now, c, i)
  }

  ghost predicate GlobalAllFit(cfg: Config, s: Limiter, ops: seq<Op>, now: real, c: real) {
    forall i :: 0 <= i <= |ops| ==> GlobalFits(cfg, s, ops, now, c, i)
  }

  lemma RefillTwice(b: BucketState, rate: real, burst: real, t: real, now: real)
    requires rate >= 0.0 && b.last <= t <= now
    ensures Refill(b, rate, burst, now).tokens
         == MinReal(Refill(b, rate, burst, t).tokens + Earned(rate, now - t), burst)
  {
    hide Earned;
    EarnedSum(rate, t - b.last, now - t);
    EarnedMonotone(rate, 0.0, now - t);
    assert (t - b.last) + (now - t) == now - b.last;
  }

  lemma TokensLater(cfg: Config, s: Limiter, sid: string, t: real, now: real)
    requires cfg.NonNegative() && SessionsInv(cfg, s.sessions, t) && t <= now
    ensures Tokens(cfg, s, sid, now)
         == MinReal(Tokens(cfg, s, sid, t) + Earned(cfg.sessionPerSec, now - t), cfg.sessionBurst)
  {
    hide Earned;
    EarnedMonotone(cfg.sessionPerSec, 0.0, now - t);
    if sid in s.sessions {
      RefillTwice(s.sessions[sid].bucket, cfg.sessionPerSec, cfg.sessionBurst, t, now);
    }
  }

  lemma FitsLater(cfg: Config, s: Limiter, ops: seq<Op>, sid: string, now: real, c: real, i: nat)
    requires 1 <= i <= |ops|
    ensures SessionFits(cfg, s, ops, sid, now, c, i)
       <==> SessionFits(cfg, Step(cfg, s, ops[0]), ops[1..], sid, now, c, i - 1)
    ensures GlobalFits(cfg, s, ops, now, c, i) <==> GlobalFits(cfg, Step(cfg, s, ops[0]), ops[1..], now, c, i - 1)
  {
    hide Step, Admitted, Allowed, Earned;
    assert ops[..i][1..] == ops[1..][..i - 1] && ops[..i][0] == ops[0];
    assert ops[i..] == ops[1..][i - 1..];
  }

  lemma TokensAtOnce(cfg: Config, s: Limiter, t: real, sid: string, now: real, c: real)
    requires cfg.NonNegative() && Inv(cfg, s, t) && t <= now
    ensures Tokens(cfg, s, sid, now) >= c
       <==> && Admitted(cfg, s, [], sid) + c <= Tokens(cfg, s, sid, t) + Earned(cfg.sessionPerSec, now - t)
            && SessionAllFit(cfg, s, [], sid, now, c)
  {
    TokensLater(cfg, s, sid, t, now);
    EarnedMonotone(cfg.sessionPerSec, 0.0, 0.0);
    hide Earned, Tokens;
    assert Admitted(cfg, s, [], sid) == 0.0;
    assert SessionFits(cfg, s, [], sid, now, c, 0) <==> c <= cfg.sessionBurst;
  }

  /** Idle sessions refill before they are forgotten, or nothing is forgotten. */
  ghost predicate PrunesAreInvisible(cfg: Config, ops: seq<Op>) {
    RefillsBeforeTtl(cfg) || forall op :: op in ops ==> op.DoCheck?
  }

  lemma InvisibleParts(cfg: Config, ops: seq<Op>)
    requires ops != [] && PrunesAreInvisible(cfg, ops)
    ensures (ops[0].DoCheck? || RefillsBeforeTtl(cfg)) && PrunesAreInvisible(cfg, ops[1..])
  {
  }

  /** One more interval: its bound, and what the later intervals leave. */
  lemma OneMoreInterval(tokens: real, burst: real, spent: real, soon: real, later: real, rest: real, c: real)
    ensures rest + c <= MinReal(tokens + soon, burst) - spent + later
       <==> spent + rest + c <= tokens + (soon + later) && spent + rest + c <= burst + later
  {
  }

  /** From one operation to the next: what the time between earns, up to the burst, and what the next one spends. */
  lemma TokensMove(cfg: Config, s: Limiter, t: real, op: Op, sid: string)
    requires cfg.NonNegative() && Inv(cfg, s, t) && t <= op.now && (op.DoCheck? || RefillsBeforeTtl(cfg))
    ensures Inv(cfg, Step(cfg, s, op), op.now)
    ensures Tokens(cfg, Step(cfg, s, op), sid, op.now)
         == MinReal(Tokens(cfg, s, sid, t) + Earned(cfg.sessionPerSec, op.now - t), cfg.sessionBurst)
            - Spent(cfg, s, op, sid)
  {
    TokensLater(cfg, s, sid, t, op.now);
    InvLater(cfg, s, t, op.now);
    StepKeepsInv(cfg, s, t, op);
    hide Earned, Tokens, Spent, Step;
    StepSpends(cfg, s, op, sid);
  }

  /** What the later operations leave, and the interval that begins with the first one. */
  lemma TokensStep(cfg: Config, s: Limiter, t: real, ops: seq<Op>, sid: string, now: real, c: real)
    requires cfg.NonNegative() && Inv(cfg, s, t) && ops != [] && t <= ops[0].now
    requires PrunesAreInvisible(cfg, ops)
    ensures var (s', later) := (Step(cfg, s, ops[0]), Earned(cfg.sessionPerSec, now - ops[0].now));
            (Admitted(cfg, s', ops[1..], sid) + c <= Tokens(cfg, s', sid, ops[0].now) + later
             && SessionAllFit(cfg, s', ops[1..], sid, now, c))
            <==> (Admitted(cfg, s, ops, sid) + c <= Tokens(cfg, s, sid, t) + Earned(cfg.sessionPerSec, now - t)
                  && SessionAllFit(cfg, s, ops, sid, now, c))
  {
    var op := ops[0];
    InvisibleParts(cfg, ops);
    hide *;
    TokensMove(cfg, s, t, op, sid);
    AdmittedStep(cfg, s, ops, sid);
    EarnedSum(cfg.sessionPerSec, op.now - t, now - op.now);
    SessionAllFitStep(cfg, s, ops, sid, now, c);
    OneMoreInterval(Tokens(cfg, s, sid, t), cfg.sessionBurst, Spent(cfg, s, op, sid),
                    Earned(cfg.sessionPerSec, op.now - t), Earned(cfg.sessionPerSec, now - op.now),
                    Admitted(cfg, Step(cfg, s, op), ops[1..], sid), c);
  }

  /** The tokens of a session are the least that any of its intervals leaves. */
  lemma {:induction false} TokensExactly(cfg: Config, s: Limiter, t: real, ops: seq<Op>, sid: string, now: real,
                                         c: real)
    requires cfg.NonNegative() && Inv(cfg, s, t) && Ordered(t, ops) && t <= now && EndTime(t, ops) <= now
    requires PrunesAreInvisible(cfg, ops)
    ensures Tokens(cfg, Run(cfg, s, ops), sid, now) >= c
       <==> && Admitted(cfg, s, ops, sid) + c <= Tokens(cfg, s, sid, t) + Earned(cfg.sessionPerSec, now - t)
            && SessionAllFit(cfg, s, ops, sid, now, c)
    decreases |ops|
  {
    if ops == [] {
      TokensAtOnce(cfg, s, t, sid, now, c);
    } else {
      FirstStep(cfg, s, t, ops, now);
      InvisibleParts(cfg, ops);
      hide *;
      StepKeepsInv(cfg, s, t, ops[0]);
      TokensStep(cfg, s, t, ops, sid, now, c);
      TokensExactly(cfg, Step(cfg, s, ops[0]), ops[0].now, ops[1..], sid, now, c);
    }
  }

  lemma FirstStep(cfg: Config, s: Limiter, t: real, ops: seq<Op>, now: real)
    requires ops != [] && Ordered(t, ops) && EndTime(t, ops) <= now
    ensures Run(cfg, s, ops) == Run(cfg, Step(cfg, s, ops[0]), ops[1..])
    ensures t <= ops[0].now <= now && Ordered(ops[0].now, ops[1..]) && EndTime(ops[0].now, ops[1..]) <= now
  {
    hide Step;
    OrderedEnd(ops[0].now, ops[1..]);
  }

  lemma FirstFits(cfg: Config, s: Limiter, ops: seq<Op>, sid: string, now: real, c: real)
    requires ops != []
    ensures SessionFits(cfg, s, ops, sid, now, c, 0)
       <==> Admitted(cfg, s, ops, sid) + c <= cfg.sessionBurst + Earned(cfg.sessionPerSec, now - ops[0].now)
    ensures GlobalFits(cfg, s, ops, now, c, 0)
       <==> Allowed(cfg, s, ops) + c <= cfg.globalBurst + Earned(cfg.globalPerSec, now - ops[0].now)
  {
    hide Admitted, Allowed, Earned;
    assert ops[..0] == [] && ops[0..] == ops && Run(cfg, s, []) == s;
  }

  lemma SessionAllFitStep(cfg: Config, s: Limiter, ops: seq<Op>, sid: string, now: real, c: real)
    requires ops != []
    ensures SessionAllFit(cfg, s, ops, sid, now, c)
       <==> && Admitted(cfg, s, ops, sid) + c <= cfg.sessionBurst + Earned(cfg.sessionPerSec, now - ops[0].now)
            && SessionAllFit(cfg, Step(cfg, s, ops[0]), ops[1..], sid, now, c)
  {
    hide SessionFits, Step, Admitted, Earned;
    var s', rest := Step(cfg, s, ops[0]), ops[1..];
    FirstFits(cfg, s, ops, sid, now, c);
    if SessionAllFit(cfg, s, ops, sid, now, c) {
      forall i | 0 <= i <= |rest| ensures SessionFits(cfg, s', rest, sid, now, c, i) {
        FitsLater(cfg, s, ops, sid, now, c, i + 1);
        assert SessionFits(cfg, s, ops, sid, now, c, i + 1);
      }
      assert SessionFits(cfg, s, ops, sid, now, c, 0);
    } else {
      var i :| 0 <= i <= |ops| && !SessionFits(cfg, s, ops, sid, now, c, i);
      if i > 0 {
        FitsLater(cfg, s, ops, sid, now, c, i);
      }
    }
  }

  lemma GlobalAllFitStep(cfg: Config, s: Limiter, ops: seq<Op>, now: real, c: real)
    requires ops != []
    ensures GlobalAllFit(cfg, s, ops, now, c)
       <==> && Allowed(cfg, s, ops) + c <= cfg.globalBurst + Earned(cfg.globalPerSec, now - ops[0].now)
            && GlobalAllFit(cfg, Step(cfg, s, ops[0]), ops[1..], now, c)
  {
    hide GlobalFits, Step, Allowed, Earned;
    var s', rest := Step(cfg, s, ops[0]), ops[1..];
    FirstFits(cfg, s, ops, "", now, c);
    if GlobalAllFit(cfg, s, ops, now, c) {
      forall i | 0 <= i <= |rest| ensures GlobalFits(cfg, s', rest, now, c, i) {
        FitsLater(cfg, s, ops, "", now, c, i + 1);
        assert GlobalFits(cfg, s, ops, now, c, i + 1);
      }
      assert GlobalFits(cfg, s, ops, now, c, 0);
    } else {
      var i :| 0 <= i <= |ops| && !GlobalFits(cfg, s, ops, now, c, i);
      if i > 0 {
        FitsLater(cfg, s, ops, "", now, c, i);
      }
    }
  }

  lemma GlobalMoves(cfg: Config, s: Limiter, t: real, op: Op)
    requires cfg.NonNegative() && Inv(cfg, s, t) && t <= op.now
    ensures Inv(cfg, Step(cfg, s, op), op.now)
    ensures GlobalTokens(cfg, Step(cfg, s, op), op.now)
         == MinReal(GlobalTokens(cfg, s, t) + Earned(cfg.globalPerSec, op.now - t), cfg.globalBurst)
            - GlobalSpent(cfg, s, op)
  {
    RefillTwice(s.global, cfg.globalPerSec, cfg.globalBurst, t, op.now);
    InvLater(cfg, s, t, op.now);
    StepKeepsInv(cfg, s, t, op);
    hide Earned, Refill, GlobalSpent, Step;
    GlobalStepSpends(cfg, s, op);
  }

  lemma GlobalTokensStep(cfg: Config, s: Limiter, t: real, ops: seq<Op>, now: real, c: real)
    requires cfg.NonNegative() && Inv(cfg, s, t) && ops != [] && t <= ops[0].now
    ensures var (s', later) := (Step(cfg, s, ops[0]), Earned(cfg.globalPerSec, now - ops[0].now));
            (Allowed(cfg, s', ops[1..]) + c <= GlobalTokens(cfg, s', ops[0].now) + later
             && GlobalAllFit(cfg, s', ops[1..], now, c))
            <==> (Allowed(cfg, s, ops) + c <= GlobalTokens(cfg, s, t) + Earned(cfg.globalPerSec, now - t)
                  && GlobalAllFit(cfg, s, ops, now, c))
  {
    var op := ops[0];
    hide *;
    GlobalMoves(cfg, s, t, op);
    AllowedStep(cfg, s, ops);
    EarnedSum(cfg.globalPerSec, op.now - t, now - op.now);
    GlobalAllFitStep(cfg, s, ops, now, c);
    OneMoreInterval(GlobalTokens(cfg, s, t), cfg.globalBurst, GlobalSpent(cfg, s, op),
                    Earned(cfg.globalPerSec, op.now - t), Earned(cfg.globalPerSec, now - op.now),
                    Allowed(cfg, Step(cfg, s, op), ops[1..]), c);
  }

  /** So are those of the global bucket. */
  lemma {:induction false} GlobalTokensExactly(cfg: Config, s: Limiter, t: real, ops: seq<Op>, now: real, c: real)
    requires cfg.NonNegative() && Inv(cfg, s, t) && Ordered(t, ops) && t <= now && EndTime(t, ops) <= now
    ensures GlobalTokens(cfg, Run(cfg, s, ops), now) >= c
       <==> && Allowed(cfg, s, ops) + c <= GlobalTokens(cfg, s, t) + Earned(cfg.globalPerSec, now - t)
            && GlobalAllFit(cfg, s, ops, now, c)
    decreases |ops|
  {
    if ops == [] {
      GlobalTokensAtOnce(cfg, s, t, now, c);
    } else {
      FirstStep(cfg, s, t, ops, now);
      hide *;
      StepKeepsInv(cfg, s, t, ops[0]);
      GlobalTokensStep(cfg, s, t, ops, now, c);
      GlobalTokensExactly(cfg, Step(cfg, s, ops[0]), ops[0].now, ops[1..], now, c);
    }
  }

  lemma GlobalTokensAtOnce(cfg: Config, s: Limiter, t: real, now: real, c: real)
    requires cfg.NonNegative() && Inv(cfg, s, t) && t <= now
    ensures GlobalTokens(cfg, s, now) >= c
       <==> && Allowed(cfg, s, []) + c <= GlobalTokens(cfg, s, t) + Earned(cfg.globalPerSec, now - t)
            && GlobalAllFit(cfg, s, [], now, c)
  {
    RefillTwice(s.global, cfg.globalPerSec, cfg.globalBurst, t, now);
    EarnedMonotone(cfg.globalPerSec, 0.0, 0.0);
    hide Earned;
    assert Allowed(cfg, s, []) == 0.0;
    assert GlobalFits(cfg, s, [], now, c, 0) <==> c <= cfg.globalBurst;
  }

  // ---------------------------------------------------------------- windows, from the decisions so far

  lemma IpsAfterPrune(cfg: Config, s: Limiter, now: real, ip: Ip)
    ensures WindowOf(Prune(cfg, s, now).ips, ip) == Live(WindowOf(s.ips, ip), now, cfg.ipSessionWindow)
  {
  }

  /** Whatever is in a window is a pass of the run. */
  lemma {:induction false} WindowHoldsPasses(cfg: Config, s: Limiter, ops: seq<Op>, ip: Ip, sid: string)
    requires sid in WindowOf(Run(cfg, s, ops).ips, ip)
    ensures var since := WindowOf(Run(cfg, s, ops).ips, ip)[sid];
            || (sid, since) in Passes(cfg, s, ops, ip)
            || (sid in WindowOf(s.ips, ip) && since == WindowOf(s.ips, ip)[sid])
    decreases |ops|
  {
    if ops != [] {
      var op, s' := ops[0], Step(cfg, s, ops[0]);
      hide Step, Check;
      WindowHoldsPasses(cfg, s', ops[1..], ip, sid);
      if sid in WindowOf(s'.ips, ip) {
        EntryIsPass(cfg, s, op, ip, sid);
      }
    }
  }

  lemma EntryIsPass(cfg: Config, s: Limiter, op: Op, ip: Ip, sid: string)
    requires sid in WindowOf(Step(cfg, s, op).ips, ip)
    ensures var since := WindowOf(Step(cfg, s, op).ips, ip)[sid];
            || (sid in WindowOf(s.ips, ip) && since == WindowOf(s.ips, ip)[sid])
            || (op.DoCheck? && op.ip == ip && PassedIp(Check(cfg, s, op.now, op.ip, op.sid, op.n).1)
                && (sid, since) == (op.sid, op.now))
  {
    if op.DoCheck? {
      IpsAfterCheck(cfg, s, op.now, op.ip, op.sid, op.n);
      hide TryTake;
    } else {
      IpsAfterPrune(cfg, s, op.now, ip);
    }
  }

  /** The live part of a window is exactly the sessions that passed within it. */
  lemma LiveIsPassed(cfg: Config, t0: real, ops: seq<Op>, ip: Ip, now: real)
    requires cfg.NonNegative() && !ip.IsUnspecified() && Ordered(t0, ops) && EndTime(t0, ops) <= now
    ensures var s := Run(cfg, New(cfg, t0), ops);
            Live(WindowOf(s.ips, ip), now, cfg.ipSessionWindow).Keys
            == PassedWithin(Passes(cfg, New(cfg, t0), ops, ip), now, cfg.ipSessionWindow)
  {
    var start, w := New(cfg, t0), cfg.ipSessionWindow;
    var s, passes := Run(cfg, start, ops), Passes(cfg, start, ops, ip);
    NewInv(cfg, t0);
    hide Run, Passes, Inv, New;
    forall sid ensures sid in Live(WindowOf(s.ips, ip), now, w) <==> sid in PassedWithin(passes, now, w) {
      LivePass(cfg, t0, ops, ip, now, sid);
    }
  }

  lemma LivePass(cfg: Config, t0: real, ops: seq<Op>, ip: Ip, now: real, sid: string)
    requires cfg.NonNegative() && !ip.IsUnspecified() && Ordered(t0, ops) && EndTime(t0, ops) <= now
    ensures var s := Run(cfg, New(cfg, t0), ops);
            sid in Live(WindowOf(s.ips, ip), now, cfg.ipSessionWindow)
            <==> sid in PassedWithin(Passes(cfg, New(cfg, t0), ops, ip), now, cfg.ipSessionWindow)
  {
    var start, w := New(cfg, t0), cfg.ipSessionWindow;
    var s, passes := Run(cfg, start, ops), Passes(cfg, start, ops, ip);
    NewInv(cfg, t0);
    assert WindowOf(start.ips, ip) == map[];
    if sid in Live(WindowOf(s.ips, ip), now, w) {
      hide Run, Passes, Inv;
      WindowHoldsPasses(cfg, start, ops, ip, sid);
      var p := (sid, WindowOf(s.ips, ip)[sid]);
      PassesAreRemembered(cfg, start, t0, ops, ip, p);
      assert p in passes && now - w < p.1 <= now;
    }
    if sid in PassedWithin(passes, now, w) {
      hide Run, Passes, Inv;
      var p :| p in passes && now - w < p.1 <= now && p.0 == sid;
      PassesAreRemembered(cfg, start, t0, ops, ip, p);
    }
  }

  // ---------------------------------------------------------------- the decision

  lemma TokensOfRun(cfg: Config, t0: real, ops: seq<Op>, sid: string, now: real, c: real)
    requires cfg.NonNegative() && Ordered(t0, ops) && t0 <= now && EndTime(t0, ops) <= now
    requires PrunesAreInvisible(cfg, ops)
    ensures Tokens(cfg, Run(cfg, New(cfg, t0), ops), sid, now) >= c
       <==> SessionAllFit(cfg, New(cfg, t0), ops, sid, now, c)
  {
    var start := New(cfg, t0);
    NewInv(cfg, t0);
    TokensExactly(cfg, start, t0, ops, sid, now, c);
    EarnedMonotone(cfg.sessionPerSec, 0.0, now - t0);
    assert Tokens(cfg, start, sid, t0) == cfg.sessionBurst;
    hide New, Tokens;
    if ops == [] {
      assert Admitted(cfg, start, [], sid) == 0.0;
      assert SessionAllFit(cfg, start, [], sid, now, c) ==> SessionFits(cfg, start, [], sid, now, c, 0);
      hide Earned;
      assert SessionFits(cfg, start, [], sid, now, c, 0) <==> c <= cfg.sessionBurst;
    } else {
      EarnedMonotone(cfg.sessionPerSec, now - ops[0].now, now - t0);
      hide Earned, Admitted, SessionAllFit;
      SessionAllFitStep(cfg, start, ops, sid, now, c);
    }
  }

  lemma GlobalTokensOfRun(cfg: Config, t0: real, ops: seq<Op>, now: real, c: real)
    requires cfg.NonNegative() && Ordered(t0, ops) && t0 <= now && EndTime(t0, ops) <= now
    ensures GlobalTokens(cfg, Run(cfg, New(cfg, t0), ops), now) >= c
       <==> GlobalAllFit(cfg, New(cfg, t0), ops, now, c)
  {
    var start := New(cfg, t0);
    NewInv(cfg, t0);
    GlobalTokensExactly(cfg, start, t0, ops, now, c);
    EarnedMonotone(cfg.globalPerSec, 0.0, 0.0);
    EarnedMonotone(cfg.globalPerSec, 0.0, now - t0);
    assert GlobalTokens(cfg, start, t0) == cfg.globalBurst;
    hide New, GlobalTokens;
    if ops == [] {
      assert Allowed(cfg, start, []) == 0.0;
      assert GlobalAllFit(cfg, start, [], now, c) ==> GlobalFits(cfg, start, [], now, c, 0);
      hide Earned;
      assert GlobalFits(cfg, start, [], now, c, 0) <==> c <= cfg.globalBurst;
    } else {
      EarnedMonotone(cfg.globalPerSec, now - ops[0].now, now - t0);
      hide Earned, Allowed, GlobalAllFit;
      GlobalAllFitStep(cfg, start, ops, now, c);
    }
  }

  /** The session is tracked or finds room, and with this check every interval keeps within burst + rate * length. */
  ghost predicate SessionLets(cfg: Config, t0: real, ops: seq<Op>, now: real, sid: string, n: u32) {
    && HasRoom(cfg, Run(cfg, New(cfg, t0), ops), sid)
    && SessionAllFit(cfg, New(cfg, t0), ops, sid, now, Units(n))
  }

  /**
   * The address is unknown; or it is tracked or finds room, and the session is one of those that passed within the
   * window, or these are fewer than the cap.
   */
  ghost predicate IpLets(cfg: Config, t0: real, ops: seq<Op>, now: real, ip: Ip, sid: string) {
    var (ips, passed) := (Run(cfg, New(cfg, t0), ops).ips,
                          PassedWithin(Passes(cfg, New(cfg, t0), ops, ip), now, cfg.ipSessionWindow));
    || ip.IsUnspecified()
    || ((ip in ips || |ips| < cfg.maxTrackedIps) && (sid in passed || |passed| < cfg.ipSessionCap))
  }

  ghost predicate GlobalLets(cfg: Config, t0: real, ops: seq<Op>, now: real, n: u32) {
    GlobalAllFit(cfg, New(cfg, t0), ops, now, Units(n))
  }

  lemma IpLevelExactly(cfg: Config, t0: real, ops: seq<Op>, now: real, ip: Ip, sid: string)
    requires cfg.NonNegative() && Ordered(t0, ops) && t0 <= now && EndTime(t0, ops) <= now
    ensures IpLevel(cfg, Run(cfg, New(cfg, t0), ops).ips, now, ip, sid).1.None? <==> IpLets(cfg, t0, ops, now, ip, sid)
  {
    if !ip.IsUnspecified() {
      LiveIsPassed(cfg, t0, ops, ip, now);
      var s := Run(cfg, New(cfg, t0), ops);
      var live := Live(WindowOf(s.ips, ip), now, cfg.ipSessionWindow);
      assert |live| == |live.Keys|;
      hide Run, New, Passes, PassedWithin, Live;
    }
  }

  /** The first level whose promise the check would break refuses it; if there is none, it is allowed. */
  lemma DecisionExactly(cfg: Config, t0: real, ops: seq<Op>, now: real, ip: Ip, sid: string, n: u32)
    requires cfg.NonNegative() && Ordered(t0, ops) && t0 <= now && EndTime(t0, ops) <= now
    requires PrunesAreInvisible(cfg, ops)
    ensures var d := Check(cfg, Run(cfg, New(cfg, t0), ops), now, ip, sid, n).1;
            && (d.Deny? && d.scope == SessionScope <==> !SessionLets(cfg, t0, ops, now, sid, n))
            && (d.Deny? && d.scope == IpScope
                <==> SessionLets(cfg, t0, ops, now, sid, n) && !IpLets(cfg, t0, ops, now, ip, sid))
            && (d.Allow? <==> && SessionLets(cfg, t0, ops, now, sid, n) && IpLets(cfg, t0, ops, now, ip, sid)
                              && GlobalLets(cfg, t0, ops, now, n))
  {
    var s := Run(cfg, New(cfg, t0), ops);
    NewInv(cfg, t0);
    RunKeepsInv(cfg, New(cfg, t0), t0, ops);
    InvLater(cfg, s, EndTime(t0, ops), now);
    SessionLevelDecides(cfg, s, now, ip, sid, n);
    IpLevelDecides(cfg, s, now, ip, sid, n);
    assert SessionsInv(cfg, s.sessions, now) && BucketInv(s.global, cfg.globalBurst, now);
    hide Run, New, Check, Inv, IpLets, SessionsInv, BucketInv, IpLevel, SessionLevel;
    SessionTakesUnits(cfg, s, now, ip, sid, n);
    GlobalTakesUnits(cfg, s, now, ip, sid, n);
    TokensOfRun(cfg, t0, ops, sid, now, Units(n));
    GlobalTokensOfRun(cfg, t0, ops, now, Units(n));
    IpLevelExactly(cfg, t0, ops, now, ip, sid);
  }

  lemma IpLevelDecides(cfg: Config, s: Limiter, now: real, ip: Ip, sid: string, n: u32)
    ensures var d := Check(cfg, s, now, ip, sid, n).1;
            PassedIp(d) <==> PassedSession(d) && IpLevel(cfg, s.ips, now, ip, sid).1.None?
  {
    hide TryTake, Recorded;
  }
}
