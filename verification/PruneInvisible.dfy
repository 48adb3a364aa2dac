/**
 * Forgetting idle state is invisible to the callers. Two limiters that answer the same checks run side by side,
 * each with prunes of its own: a session that only one of them remembers has a bucket that is full again, and
 * an IP that only one of them remembers has a window that is empty again.
 */
module PruneInvisible {
  import opened Common
  import opened TokenBucket
  import opened IpWindow
  import opened RateLimit

  /**
   * An idle session earns a full bucket before it is forgotten, or the bucket is too small for any request
   * and so is always full.
   */
  ghost predicate RefillsBeforeTtl(cfg: Config) {
    cfg.sessionBurst < 1.0 || 2.0 * MaxReal(cfg.ipSessionWindow, 300.0) * cfg.sessionPerSec >= cfg.sessionBurst
  }

  /** The session of a check is tracked or finds room, and so does its address if the check gets that far. */
  ghost predicate FindsRoom(cfg: Config, s: Limiter, op: Op) {
    op.DoCheck? ==>
      && (op.sid in s.sessions || |s.sessions| < cfg.maxTrackedSessions)
      && (SessionLevel(cfg, s.sessions, op.now, op.sid, op.n).1.None? ==>
            op.ip.IsUnspecified() || op.ip in s.ips || |s.ips| < cfg.maxTrackedIps)
  }

  /** No check of the run meets a full map. */
  ghost predicate BelowCapacity(cfg: Config, s: Limiter, ops: seq<Op>)
    decreases |ops|
  {
    ops == [] || (FindsRoom(cfg, s, ops[0]) && BelowCapacity(cfg, Step(cfg, s, ops[0]), ops[1..]))
  }

  ghost predicate Full(cfg: Config, b: BucketState, now: real) {
    Refill(b, cfg.sessionPerSec, cfg.sessionBurst, now).tokens == cfg.sessionBurst
  }

  /** Both remember the session alike, or the one that remembers it has a full bucket. */
  ghost predicate SameSession(cfg: Config, p: map<string, SessionState>, u: map<string, SessionState>, k: string,
                              now: real)
  {
    && (k in p && k in u ==> p[k] == u[k])
    && (k in p && k !in u ==> Full(cfg, p[k].bucket, now))
    && (k !in p && k in u ==> Full(cfg, u[k].bucket, now))
  }

  /** What only one of them has forgotten does not matter from `now` on. */
  ghost predicate Similar(cfg: Config, p: Limiter, u: Limiter, now: real) {
    && p.global == u.global
    && (forall k :: SameSession(cfg, p.sessions, u.sessions, k, now))
    && forall ip :: Live(WindowOf(p.ips, ip), now, cfg.ipSessionWindow)
                 == Live(WindowOf(u.ips, ip), now, cfg.ipSessionWindow)
  }

  lemma SimilarSwaps(cfg: Config, p: Limiter, u: Limiter, now: real)
    requires Similar(cfg, p, u, now)
    ensures Similar(cfg, u, p, now)
  {
    forall k ensures SameSession(cfg, u.sessions, p.sessions, k, now) {
      assert SameSession(cfg, p.sessions, u.sessions, k, now);
    }
  }

  lemma FullStaysFull(b: BucketState, rate: real, burst: real, t: real, now: real)
    requires rate >= 0.0 && b.last <= t <= now
    requires Refill(b, rate, burst, t).tokens == burst
    ensures Refill(b, rate, burst, now).tokens == burst
  {
    RefillGrows(b, rate, burst, t, now);
  }

  lemma SimilarLater(cfg: Config, p: Limiter, u: Limiter, t: real, now: real)
    requires cfg.NonNegative() && t <= now && Inv(cfg, p, t) && Inv(cfg, u, t) && Similar(cfg, p, u, t)
    ensures Similar(cfg, p, u, now)
  {
    forall k ensures SameSession(cfg, p.sessions, u.sessions, k, now) {
      assert SameSession(cfg, p.sessions, u.sessions, k, t);
      if k in p.sessions && k !in u.sessions {
        FullStaysFull(p.sessions[k].bucket, cfg.sessionPerSec, cfg.sessionBurst, t, now);
      }
      if k !in p.sessions && k in u.sessions {
        FullStaysFull(u.sessions[k].bucket, cfg.sessionPerSec, cfg.sessionBurst, t, now);
      }
    }
    forall ip ensures Live(WindowOf(p.ips, ip), now, cfg.ipSessionWindow)
                   == Live(WindowOf(u.ips, ip), now, cfg.ipSessionWindow) {
      LiveTwice(WindowOf(p.ips, ip), t, now, cfg.ipSessionWindow);
      LiveTwice(WindowOf(u.ips, ip), t, now, cfg.ipSessionWindow);
    }
  }

  /** A check cannot tell a forgotten session from a remembered one. */
  lemma SameSessionLevel(cfg: Config, p: Limiter, u: Limiter, now: real, sid: string, n: u32)
    requires cfg.NonNegative() && Similar(cfg, p, u, now)
    requires SessionsInv(cfg, p.sessions, now) && SessionsInv(cfg, u.sessions, now)
    requires sid in p.sessions || |p.sessions| < cfg.maxTrackedSessions
    requires sid in u.sessions || |u.sessions| < cfg.maxTrackedSessions
    ensures var (ps, pd) := SessionLevel(cfg, p.sessions, now, sid, n);
            var (us, ud) := SessionLevel(cfg, u.sessions, now, sid, n);
            && pd == ud && Similar(cfg, p.(sessions := ps), u.(sessions := us), now)
  {
    var ps := SessionLevel(cfg, p.sessions, now, sid, n).0;
    var us := SessionLevel(cfg, u.sessions, now, sid, n).0;
    assert SameSession(cfg, p.sessions, u.sessions, sid, now);
    assert Refill(BucketOf(cfg, p.sessions, sid, now), cfg.sessionPerSec, cfg.sessionBurst, now)
        == Refill(BucketOf(cfg, u.sessions, sid, now), cfg.sessionPerSec, cfg.sessionBurst, now);
    forall k ensures SameSession(cfg, ps, us, k, now) {
      assert SameSession(cfg, p.sessions, u.sessions, k, now);
    }
  }

  lemma SameGlobal(cfg: Config, p: Limiter, u: Limiter, g: BucketState, now: real)
    requires Similar(cfg, p, u, now)
    ensures p.global == u.global && Similar(cfg, p.(global := g), u.(global := g), now)
  {
  }

  lemma SameIpLevel(cfg: Config, p: Limiter, u: Limiter, now: real, ip: Ip, sid: string)
    requires Similar(cfg, p, u, now)
    requires ip.IsUnspecified() || ip in p.ips || |p.ips| < cfg.maxTrackedIps
    requires ip.IsUnspecified() || ip in u.ips || |u.ips| < cfg.maxTrackedIps
    ensures var (pi, pd) := IpLevel(cfg, p.ips, now, ip, sid);
            var (ui, ud) := IpLevel(cfg, u.ips, now, ip, sid);
            && pd == ud && Similar(cfg, p.(ips := pi), u.(ips := ui), now)
  {
    var pi := IpLevel(cfg, p.ips, now, ip, sid).0;
    var ui := IpLevel(cfg, u.ips, now, ip, sid).0;
    assert Live(WindowOf(p.ips, ip), now, cfg.ipSessionWindow) == Live(WindowOf(u.ips, ip), now, cfg.ipSessionWindow);
    forall other ensures Live(WindowOf(pi, other), now, cfg.ipSessionWindow)
                      == Live(WindowOf(ui, other), now, cfg.ipSessionWindow) {
      if other != ip {
        assert WindowOf(pi, other) == WindowOf(p.ips, other) && WindowOf(ui, other) == WindowOf(u.ips, other);
      }
    }
  }

  lemma CheckKeepsSimilar(cfg: Config, p: Limiter, u: Limiter, op: Op)
    requires cfg.NonNegative() && op.DoCheck? && Similar(cfg, p, u, op.now)
    requires SessionsInv(cfg, p.sessions, op.now) && SessionsInv(cfg, u.sessions, op.now)
    requires FindsRoom(cfg, p, op) && FindsRoom(cfg, u, op)
    ensures Check(cfg, p, op.now, op.ip, op.sid, op.n).1 == Check(cfg, u, op.now, op.ip, op.sid, op.n).1
    ensures Similar(cfg, Step(cfg, p, op), Step(cfg, u, op), op.now)
  {
    hide SessionLevel, IpLevel, TryTake, Similar, SessionsInv, RetryAfter, DenyWith;
    var DoCheck(now, ip, sid, n) := op;
    SameSessionLevel(cfg, p, u, now, sid, n);
    var ps := p.(sessions := SessionLevel(cfg, p.sessions, now, sid, n).0);
    var us := u.(sessions := SessionLevel(cfg, u.sessions, now, sid, n).0);
    if SessionLevel(cfg, p.sessions, now, sid, n).1.None? {
      SameIpLevel(cfg, ps, us, now, ip, sid);
      var pi := ps.(ips := IpLevel(cfg, p.ips, now, ip, sid).0);
      var ui := us.(ips := IpLevel(cfg, u.ips, now, ip, sid).0);
      SameGlobal(cfg, pi, ui, TryTake(pi.global, cfg.globalPerSec, cfg.globalBurst, Cost(n), now).0, now);
    }
  }

  lemma IdleIsFull(cfg: Config, s: SessionState, now: real)
    requires cfg.NonNegative() && RefillsBeforeTtl(cfg)
    requires BucketInv(s.bucket, cfg.sessionBurst, now) && s.lastSeen == s.bucket.last
    requires cfg.sessionBurst < 1.0 ==> s.bucket.tokens == cfg.sessionBurst
    requires Elapsed(s.lastSeen, now) >= cfg.SessionTtl()
    ensures Full(cfg, s.bucket, now)
  {
    EarnedIs(cfg.sessionPerSec, cfg.SessionTtl());
    hide Earned;
    EarnedMonotone(cfg.sessionPerSec, cfg.SessionTtl(), Elapsed(s.bucket.last, now));
    EarnedMonotone(cfg.sessionPerSec, 0.0, cfg.SessionTtl());
  }

  /** Only idle sessions with a full bucket, and windows with nothing live, are forgotten. */
  lemma PruneKeepsSimilar(cfg: Config, p: Limiter, u: Limiter, now: real)
    requires cfg.NonNegative() && RefillsBeforeTtl(cfg)
    requires SessionsInv(cfg, p.sessions, now) && Similar(cfg, p, u, now)
    ensures Similar(cfg, Prune(cfg, p, now), u, now)
  {
    var p' := Prune(cfg, p, now);
    forall k ensures SameSession(cfg, p'.sessions, u.sessions, k, now) {
      assert SameSession(cfg, p.sessions, u.sessions, k, now);
      if k in p.sessions && k !in p'.sessions {
        IdleIsFull(cfg, p.sessions[k], now);
      }
    }
    forall ip ensures Live(WindowOf(p'.ips, ip), now, cfg.ipSessionWindow)
                   == Live(WindowOf(u.ips, ip), now, cfg.ipSessionWindow) {
      LiveTwice(WindowOf(p.ips, ip), now, now, cfg.ipSessionWindow);
    }
  }

  /** The first check of a run is no earlier than its start. */
  lemma {:induction false} FirstCheck(t: real, ops: seq<Op>)
    requires Ordered(t, ops) && Checks(ops) != []
    ensures t <= Checks(ops)[0].now
    decreases |ops|
  {
    if ops[0].DoPrune? {
      FirstCheck(ops[0].now, ops[1..]);
    }
  }

  /** The run `a` may go first: it has a prune at its head, and the other run nothing earlier. */
  ghost predicate PruneFirst(a: seq<Op>, b: seq<Op>) {
    a != [] && a[0].DoPrune? && (b == [] || a[0].now <= b[0].now)
  }

  /** Of two runs with the same checks one may go first, or both are at the same check. */
  lemma HeadsMeet(a: seq<Op>, b: seq<Op>, t: real)
    requires Ordered(t, a) && Ordered(t, b) && Checks(a) == Checks(b) && (a != [] || b != [])
    ensures PruneFirst(a, b) || PruneFirst(b, a) || (a != [] && b != [] && a[0].DoCheck? && a[0] == b[0])
  {
    if a != [] && b != [] {
      if a[0].DoCheck? && b[0].DoPrune? { FirstCheck(b[0].now, b); }
      if b[0].DoCheck? && a[0].DoPrune? { FirstCheck(a[0].now, a); }
    }
  }

  /** One limiter prunes, and stays similar to the other. */
  lemma PruneStep(cfg: Config, p: Limiter, u: Limiter, t: real, now: real)
    requires cfg.NonNegative() && RefillsBeforeTtl(cfg) && t <= now
    requires Inv(cfg, p, t) && Inv(cfg, u, t) && Similar(cfg, p, u, t)
    ensures Inv(cfg, Prune(cfg, p, now), now) && Inv(cfg, u, now) && Similar(cfg, Prune(cfg, p, now), u, now)
  {
    SimilarLater(cfg, p, u, t, now);
    InvLater(cfg, p, t, now);
    InvLater(cfg, u, t, now);
    hide Similar, Prune;
    PruneKeepsSimilar(cfg, p, u, now);
    PruneKeepsInv(cfg, p, t, now);
  }

  lemma CheckStep(cfg: Config, p: Limiter, u: Limiter, t: real, op: Op)
    requires cfg.NonNegative() && op.DoCheck? && t <= op.now
    requires Inv(cfg, p, t) && Inv(cfg, u, t) && Similar(cfg, p, u, t)
    requires FindsRoom(cfg, p, op) && FindsRoom(cfg, u, op)
    ensures Inv(cfg, Step(cfg, p, op), op.now) && Inv(cfg, Step(cfg, u, op), op.now)
    ensures Similar(cfg, Step(cfg, p, op), Step(cfg, u, op), op.now)
    ensures Check(cfg, p, op.now, op.ip, op.sid, op.n).1 == Check(cfg, u, op.now, op.ip, op.sid, op.n).1
  {
    SimilarLater(cfg, p, u, t, op.now);
    InvLater(cfg, p, t, op.now);
    InvLater(cfg, u, t, op.now);
    hide Similar, FindsRoom, Check;
    CheckKeepsSimilar(cfg, p, u, op);
    StepKeepsInv(cfg, p, t, op);
    StepKeepsInv(cfg, u, t, op);
  }

  lemma {:induction false} SimilarRuns(cfg: Config, p: Limiter, u: Limiter, t: real, a: seq<Op>, b: seq<Op>)
    requires cfg.NonNegative() && RefillsBeforeTtl(cfg)
    requires Ordered(t, a) && Ordered(t, b) && Checks(a) == Checks(b)
    requires Inv(cfg, p, t) && Inv(cfg, u, t) && Similar(cfg, p, u, t)
    requires BelowCapacity(cfg, p, a) && BelowCapacity(cfg, u, b)
    ensures Decisions(cfg, p, a) == Decisions(cfg, u, b)
    decreases |a| + |b|
  {
    if a != [] || b != [] {
      HeadsMeet(a, b, t);
      hide Inv, Similar, FindsRoom, RefillsBeforeTtl;
      if PruneFirst(a, b) {
        PruneStep(cfg, p, u, t, a[0].now);
        SimilarRuns(cfg, Prune(cfg, p, a[0].now), u, a[0].now, a[1..], b);
      } else if PruneFirst(b, a) {
        SimilarSwaps(cfg, p, u, t);
        PruneStep(cfg, u, p, t, b[0].now);
        SimilarSwaps(cfg, Prune(cfg, u, b[0].now), p, b[0].now);
        SimilarRuns(cfg, p, Prune(cfg, u, b[0].now), b[0].now, a, b[1..]);
      } else {
        CheckStep(cfg, p, u, t, a[0]);
        assert Checks(a)[1..] == Checks(a[1..]) && Checks(b)[1..] == Checks(b[1..]);
        SimilarRuns(cfg, Step(cfg, p, a[0]), Step(cfg, u, a[0]), a[0].now, a[1..], b[1..]);
      }
    }
  }

  lemma InvLater(cfg: Config, s: Limiter, t: real, now: real)
    requires Inv(cfg, s, t) && t <= now
    ensures Inv(cfg, s, now)
  {
  }

  /** Two runs with the same checks and any prunes answer alike, as long as no check meets a full map. */
  lemma PruneIsInvisible(cfg: Config, t: real, a: seq<Op>, b: seq<Op>)
    requires cfg.NonNegative() && RefillsBeforeTtl(cfg)
    requires Ordered(t, a) && Ordered(t, b) && Checks(a) == Checks(b)
    requires BelowCapacity(cfg, New(cfg, t), a) && BelowCapacity(cfg, New(cfg, t), b)
    ensures Decisions(cfg, New(cfg, t), a) == Decisions(cfg, New(cfg, t), b)
  {
    SimilarRuns(cfg, New(cfg, t), New(cfg, t), t, a, b);
  }
}
