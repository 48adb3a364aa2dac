/**
 * The Retry-After delay (section 10.2.3 of RFC 9110) of a refusal is sufficient: whatever else happens in
 * between, prunes included, the same level lets the retry through.
 */
module RetryAfterSuffices {
  import opened Common
  import opened TokenBucket
  import opened IpWindow
  import opened RateLimit
  import opened Throughput

  ghost predicate NoCheckOf(ops: seq<Op>, sid: string) {
    forall op :: op in ops && op.DoCheck? ==> op.sid != sid
  }

  ghost predicate NoCheckFrom(ops: seq<Op>, ip: Ip) {
    forall op :: op in ops && op.DoCheck? ==> op.ip != ip
  }

  /** What others do, and what is forgotten, never costs a session tokens. */
  lemma {:induction false} OthersLeaveTokens(cfg: Config, s: Limiter, t: real, ops: seq<Op>, sid: string, later: real)
    requires cfg.NonNegative() && Inv(cfg, s, t) && Ordered(t, ops) && EndTime(t, ops) <= later
    requires NoCheckOf(ops, sid)
    ensures Tokens(cfg, Run(cfg, s, ops), sid, later) >= Tokens(cfg, s, sid, later)
    decreases |ops|
  {
    if ops != [] {
      var op, s' := ops[0], Step(cfg, s, ops[0]);
      if op.DoCheck? {
        assert op in ops;
        SessionLevelDecides(cfg, s, op.now, op.ip, op.sid, op.n);
      }
      StepKeepsInv(cfg, s, t, op);
      OrderedEnd(op.now, ops[1..]);
      assert Tokens(cfg, s', sid, later) >= Tokens(cfg, s, sid, later);
      OthersLeaveTokens(cfg, s', op.now, ops[1..], sid, later);
    }
  }

  lemma SessionRetrySucceeds(cfg: Config, s: Limiter, t: real, now: real, ip: Ip, sid: string, n: u32,
                             ops: seq<Op>, later: real, ip': Ip)
    requires cfg.NonNegative() && cfg.sessionPerSec > 0.0 && Units(n) <= cfg.sessionBurst
    requires Inv(cfg, s, t) && t <= now
    requires sid in s.sessions || |s.sessions| < cfg.maxTrackedSessions
    requires var d := Check(cfg, s, now, ip, sid, n).1;
             d.Deny? && d.scope == SessionScope && d.retryAfterSecs < U64_MAX
             && later >= now + d.retryAfterSecs as real
    requires Ordered(now, ops) && EndTime(now, ops) <= later && NoCheckOf(ops, sid)
    requires var s' := Run(cfg, Check(cfg, s, now, ip, sid, n).0, ops);
             sid in s'.sessions || |s'.sessions| < cfg.maxTrackedSessions
    ensures PassedSession(Check(cfg, Run(cfg, Check(cfg, s, now, ip, sid, n).0, ops), later, ip', sid, n).1)
  {
    var s1, s' := Check(cfg, s, now, ip, sid, n).0, Run(cfg, Check(cfg, s, now, ip, sid, n).0, ops);
    var b := BucketOf(cfg, s.sessions, sid, now);
    SessionLevelDecides(cfg, s, now, ip, sid, n);
    TokenBucket.WaitSuffices(b, cfg.sessionPerSec, cfg.sessionBurst, Cost(n), now, later);
    assert Tokens(cfg, s1, sid, later) >= Cost(n);
    CheckKeepsInv(cfg, s, t, now, ip, sid, n);
    OthersLeaveTokens(cfg, s1, now, ops, sid, later);
    SessionLevelDecides(cfg, s', later, ip', sid, n);
  }

  /** The condition on the cost is exact: above the burst no check ever gets past the session level. */
  lemma AboveBurstNeverPasses(cfg: Config, s: Limiter, now: real, ip: Ip, sid: string, n: u32)
    requires Units(n) > cfg.sessionBurst
    ensures !PassedSession(Check(cfg, s, now, ip, sid, n).1)
  {
    SessionLevelDecides(cfg, s, now, ip, sid, n);
    AboveBurstNeverTaken(BucketOf(cfg, s.sessions, sid, now), cfg.sessionPerSec, cfg.sessionBurst, Cost(n), now);
  }

  /** What happens at other addresses, and what is forgotten, leaves the live part of a window alone. */
  lemma {:induction false} OthersLeaveWindow(cfg: Config, s: Limiter, t: real, ops: seq<Op>, ip: Ip, later: real)
    requires Ordered(t, ops) && EndTime(t, ops) <= later && NoCheckFrom(ops, ip)
    ensures Live(WindowOf(Run(cfg, s, ops).ips, ip), later, cfg.ipSessionWindow)
         == Live(WindowOf(s.ips, ip), later, cfg.ipSessionWindow)
    decreases |ops|
  {
    if ops != [] {
      var op, s' := ops[0], Step(cfg, s, ops[0]);
      OrderedEnd(op.now, ops[1..]);
      if op.DoCheck? {
        assert op in ops;
        OtherWindowsStay(cfg, s, op.now, op.ip, op.sid, op.n, ip);
      } else {
        LiveTwice(WindowOf(s.ips, ip), op.now, later, cfg.ipSessionWindow);
        assert Live(WindowOf(s'.ips, ip), later, cfg.ipSessionWindow)
            == Live(Live(WindowOf(s.ips, ip), op.now, cfg.ipSessionWindow), later, cfg.ipSessionWindow);
      }
      OthersLeaveWindow(cfg, s', op.now, ops[1..], ip, later);
    }
  }

  lemma OtherWindowsStay(cfg: Config, s: Limiter, now: real, ip: Ip, sid: string, n: u32, other: Ip)
    requires other != ip
    ensures WindowOf(Check(cfg, s, now, ip, sid, n).0.ips, other) == WindowOf(s.ips, other)
  {
    hide TryTake, Recorded;
  }

  lemma IpRetrySucceeds(cfg: Config, s: Limiter, t: real, now: real, ip: Ip, sid: string, n: u32,
                        ops: seq<Op>, later: real, other: string)
    requires Inv(cfg, s, t) && t <= now && cfg.ipSessionCap >= 1
    requires ip in s.ips || |s.ips| < cfg.maxTrackedIps
    requires var d := Check(cfg, s, now, ip, sid, n).1;
             d.Deny? && d.scope == IpScope && d.retryAfterSecs < U64_MAX
             && later >= now + d.retryAfterSecs as real
    requires Ordered(now, ops) && EndTime(now, ops) <= later && NoCheckFrom(ops, ip)
    requires var s' := Run(cfg, Check(cfg, s, now, ip, sid, n).0, ops);
             ip in s'.ips || |s'.ips| < cfg.maxTrackedIps
    ensures IpLevel(cfg, Run(cfg, Check(cfg, s, now, ip, sid, n).0, ops).ips, later, ip, other).1.None?
  {
    var s1 := Check(cfg, s, now, ip, sid, n).0;
    DeniedByWindow(cfg, s, now, ip, sid, n);
    var w := WindowOf(s.ips, ip);
    IpWindow.WaitSuffices(w, sid, now, cfg.ipSessionCap, cfg.ipSessionWindow, other, later);
    OthersLeaveWindow(cfg, s1, now, ops, ip, later);
  }

  lemma DeniedByWindow(cfg: Config, s: Limiter, now: real, ip: Ip, sid: string, n: u32)
    requires ip in s.ips || |s.ips| < cfg.maxTrackedIps
    requires var d := Check(cfg, s, now, ip, sid, n).1; d.Deny? && d.scope == IpScope
    ensures var (w, r) := Recorded(WindowOf(s.ips, ip), sid, now, cfg.ipSessionCap, cfg.ipSessionWindow);
            && r.Wait? && Check(cfg, s, now, ip, sid, n).1 == Deny(IpScope, RetryAfter(r.secs))
            && WindowOf(Check(cfg, s, now, ip, sid, n).0.ips, ip) == w
  {
    hide TryTake;
    assert IpLevel(cfg, s.ips, now, ip, sid).1.Some?;
  }

  /** The condition on the cap is exact: with cap 0 no session ever passes the IP level. */
  lemma ZeroCapNeverPasses(cfg: Config, s: Limiter, t: real, now: real, ip: Ip, sid: string)
    requires Inv(cfg, s, t) && cfg.ipSessionCap == 0 && !ip.IsUnspecified()
    ensures IpLevel(cfg, s.ips, now, ip, sid).1.Some?
  {
    assert WindowOf(s.ips, ip) == map[];
  }
}
