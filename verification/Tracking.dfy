/**
 * What the limiter remembers, exactly, from the operations so far: a session is tracked while it has been seen
 * recently enough for every prune since, an address while every prune since finds a session that passed within the
 * window. The maps never hold more than their limits, and the delay of a refusal is the least sufficient one.
 */
module Tracking {
  import opened Common
  import opened TokenBucket
  import opened IpWindow
  import opened RateLimit
  import opened PruneInvisible
  import opened Throughput
  import opened IpCap
  import opened RetryAfterSuffices
  import opened Admission

  // ---------------------------------------------------------------- the limits of the maps

  ghost predicate WithinLimits(cfg: Config, s: Limiter) {
    |s.sessions| <= cfg.maxTrackedSessions && |s.ips| <= cfg.maxTrackedIps
  }

  lemma OneMore<K, V>(m: map<K, V>, k: K, v: V)
    ensures |m[k := v]| == if k in m then |m| else |m| + 1
  {
    assert m[k := v].Keys == m.Keys + {k};
    assert |m[k := v]| == |m[k := v].Keys| && |m| == |m.Keys|;
  }

  lemma Fewer<K, V>(a: map<K, V>, b: map<K, V>)
    requires a.Keys <= b.Keys
    ensures |a| <= |b|
  {
    SubsetSize(a.Keys, b.Keys);
    assert |a| == |a.Keys| && |b| == |b.Keys|;
  }

  lemma StepKeepsLimits(cfg: Config, s: Limiter, op: Op)
    requires WithinLimits(cfg, s)
    ensures WithinLimits(cfg, Step(cfg, s, op))
  {
    match op
    case DoCheck(now, ip, sid, n) =>
      SessionLevelDecides(cfg, s, now, ip, sid, n);
      IpsAfterCheck(cfg, s, now, ip, sid, n);
      var w := Recorded(WindowOf(s.ips, ip), sid, now, cfg.ipSessionCap, cfg.ipSessionWindow).0;
      if sid in SessionLevel(cfg, s.sessions, now, sid, n).0 {
        OneMore(s.sessions, sid, SessionLevel(cfg, s.sessions, now, sid, n).0[sid]);
      }
      OneMore(s.ips, ip, w);
      hide Check, Recorded;
    case DoPrune(now) =>
      Fewer(Prune(cfg, s, now).sessions, s.sessions);
      Fewer(Prune(cfg, s, now).ips, s.ips);
  }

  /** Over every run the limiter tracks at most maxTrackedSessions sessions and maxTrackedIps addresses. */
  lemma {:induction false} RunKeepsLimits(cfg: Config, s: Limiter, ops: seq<Op>)
    requires WithinLimits(cfg, s)
    ensures WithinLimits(cfg, Run(cfg, s, ops))
    decreases |ops|
  {
    if ops != [] {
      hide Step, WithinLimits;
      StepKeepsLimits(cfg, s, ops[0]);
      RunKeepsLimits(cfg, Step(cfg, s, ops[0]), ops[1..]);
    }
  }

  // ---------------------------------------------------------------- what is tracked

  lemma LastStep(cfg: Config, s: Limiter, t: real, ops: seq<Op>)
    requires ops != [] && Ordered(t, ops)
    ensures var (front, op) := (ops[..|ops| - 1], ops[|ops| - 1]);
            && Run(cfg, s, ops) == Step(cfg, Run(cfg, s, front), op)
            && Ordered(t, front) && EndTime(t, front) <= op.now
  {
    hide Step;
    var front, op := ops[..|ops| - 1], ops[|ops| - 1];
    assert ops == front + [op];
    RunSplit(cfg, s, front, [op]);
    OrderedSplit(t, front, [op]);
    assert [op][1..] == [];
  }

  /** The i-th operation is a check of the session that is tracked or finds room. */
  ghost predicate Sees(cfg: Config, t0: real, ops: seq<Op>, sid: string, i: nat) {
    i < |ops| && ops[i].DoCheck? && ops[i].sid == sid && HasRoom(cfg, Run(cfg, New(cfg, t0), ops[..i]), sid)
  }

  /** Every later prune comes less than twice the window of addresses, or 600 seconds if that is more, after it. */
  ghost predicate Outlasts(cfg: Config, ops: seq<Op>, i: nat) {
    i < |ops| && forall j :: i < j < |ops| && ops[j].DoPrune? ==>
      ops[j].now - ops[i].now < 2.0 * MaxReal(cfg.ipSessionWindow, 300.0)
  }

  ghost predicate SeenLately(cfg: Config, t0: real, ops: seq<Op>, sid: string) {
    exists i :: 0 <= i < |ops| && Sees(cfg, t0, ops, sid, i) && Outlasts(cfg, ops, i)
  }

  /** Both directions, with the instant at which the session was seen last. */
  ghost predicate TrackedSince(cfg: Config, t0: real, ops: seq<Op>, sid: string) {
    var sessions := Run(cfg, New(cfg, t0), ops).sessions;
    && (sid in sessions ==>
          exists i :: 0 <= i < |ops| && Sees(cfg, t0, ops, sid, i) && Outlasts(cfg, ops, i)
                      && ops[i].now == sessions[sid].lastSeen)
    && forall i :: 0 <= i < |ops| && Sees(cfg, t0, ops, sid, i) && Outlasts(cfg, ops, i) ==>
         sid in sessions && sessions[sid].lastSeen >= ops[i].now
  }

  lemma CheckSees(cfg: Config, s: Limiter, op: Op, sid: string)
    requires op.DoCheck?
    ensures var (before, after) := (s.sessions, Step(cfg, s, op).sessions);
            if op.sid == sid && HasRoom(cfg, s, sid) then sid in after && after[sid].lastSeen == op.now
            else (sid in after <==> sid in before) && (sid in before ==> after[sid] == before[sid])
  {
    SessionLevelDecides(cfg, s, op.now, op.ip, op.sid, op.n);
    hide Check, TryTake;
  }

  lemma EarlierSees(cfg: Config, t0: real, ops: seq<Op>, sid: string, i: nat)
    requires ops != [] && i < |ops| - 1
    ensures Sees(cfg, t0, ops, sid, i) <==> Sees(cfg, t0, ops[..|ops| - 1], sid, i)
    ensures var op := ops[|ops| - 1];
            Outlasts(cfg, ops, i) <==> && Outlasts(cfg, ops[..|ops| - 1], i)
                                       && (op.DoPrune? ==>
                                             op.now - ops[i].now < 2.0 * MaxReal(cfg.ipSessionWindow, 300.0))
  {
    hide Run, HasRoom;
    assert ops[..|ops| - 1][..i] == ops[..i];
  }

  lemma TrackedStep(cfg: Config, t0: real, ops: seq<Op>, sid: string)
    requires ops != [] && Ordered(t0, ops) && TrackedSince(cfg, t0, ops[..|ops| - 1], sid)
    ensures TrackedSince(cfg, t0, ops, sid)
  {
    var n, front, op := |ops| - 1, ops[..|ops| - 1], ops[|ops| - 1];
    var s := Run(cfg, New(cfg, t0), front);
    LastStep(cfg, New(cfg, t0), t0, ops);
    if op.DoCheck? {
      CheckSees(cfg, s, op, sid);
    }
    var (before, after) := (s.sessions, Step(cfg, s, op).sessions);
    assert op.DoPrune? && sid in before ==>
        (sid in after <==> op.now - before[sid].lastSeen < 2.0 * MaxReal(cfg.ipSessionWindow, 300.0));
    assert op.DoPrune? && sid in after ==> sid in before && after[sid] == before[sid];
    assert Sees(cfg, t0, ops, sid, n) <==> op.DoCheck? && op.sid == sid && HasRoom(cfg, s, sid);
    assert Outlasts(cfg, ops, n);
    hide Step, Run, HasRoom, Sees, Outlasts, New, MaxReal;
    if sid in after {
      if Sees(cfg, t0, ops, sid, n) {
      } else {
        var i :| 0 <= i < n && Sees(cfg, t0, front, sid, i) && Outlasts(cfg, front, i)
              && front[i].now == before[sid].lastSeen;
        EarlierSees(cfg, t0, ops, sid, i);
      }
    }
    forall i | 0 <= i < |ops| && Sees(cfg, t0, ops, sid, i) && Outlasts(cfg, ops, i)
      ensures sid in after && after[sid].lastSeen >= ops[i].now
    {
      InOrder(t0, ops, i);
      if i < n {
        EarlierSees(cfg, t0, ops, sid, i);
      }
    }
  }

  lemma {:induction false} InOrder(t: real, ops: seq<Op>, i: nat)
    requires Ordered(t, ops) && i < |ops|
    ensures t <= ops[i].now <= EndTime(t, ops)
    decreases |ops|
  {
    OrderedEnd(ops[0].now, ops[1..]);
    if i > 0 {
      InOrder(ops[0].now, ops[1..], i - 1);
    }
  }

  lemma {:induction false} TrackedSinceAlways(cfg: Config, t0: real, ops: seq<Op>, sid: string)
    requires Ordered(t0, ops)
    ensures TrackedSince(cfg, t0, ops, sid)
    decreases |ops|
  {
    if ops != [] {
      LastStep(cfg, New(cfg, t0), t0, ops);
      hide TrackedSince, Run, Step;
      TrackedSinceAlways(cfg, t0, ops[..|ops| - 1], sid);
      TrackedStep(cfg, t0, ops, sid);
    }
  }

  /** A session is tracked exactly when a check has seen it, and recently enough for every prune since. */
  lemma TrackedExactly(cfg: Config, t0: real, ops: seq<Op>, sid: string)
    requires Ordered(t0, ops)
    ensures sid in Run(cfg, New(cfg, t0), ops).sessions <==> SeenLately(cfg, t0, ops, sid)
  {
    TrackedSinceAlways(cfg, t0, ops, sid);
    hide Sees, Outlasts, Run;
  }

  // ---------------------------------------------------------------- addresses

  /** The i-th operation is a check from the address whose session passes; the address is tracked or finds room. */
  ghost predicate Reaches(cfg: Config, t0: real, ops: seq<Op>, ip: Ip, i: nat) {
    && i < |ops| && ops[i].DoCheck? && ops[i].ip == ip && !ip.IsUnspecified()
    && var s := Run(cfg, New(cfg, t0), ops[..i]);
       && PassedSession(Check(cfg, s, ops[i].now, ip, ops[i].sid, ops[i].n).1)
       && (ip in s.ips || |s.ips| < cfg.maxTrackedIps)
  }

  /** Every later prune finds a session that passed from the address within the window. */
  ghost predicate Occupied(cfg: Config, t0: real, ops: seq<Op>, ip: Ip, i: nat) {
    forall j :: i < j < |ops| && ops[j].DoPrune? ==>
      PassedWithin(Passes(cfg, New(cfg, t0), ops[..j], ip), ops[j].now, cfg.ipSessionWindow) != {}
  }

  ghost predicate ReachedLately(cfg: Config, t0: real, ops: seq<Op>, ip: Ip) {
    exists i :: 0 <= i < |ops| && Reaches(cfg, t0, ops, ip, i) && Occupied(cfg, t0, ops, ip, i)
  }

  lemma CheckReaches(cfg: Config, s: Limiter, op: Op, ip: Ip)
    requires op.DoCheck?
    ensures var (before, after) := (s.ips, Step(cfg, s, op).ips);
            ip in after <==> ip in before || (op.ip == ip && !ip.IsUnspecified() && |s.ips| < cfg.maxTrackedIps
                                              && PassedSession(Check(cfg, s, op.now, ip, op.sid, op.n).1))
  {
    SessionLevelDecides(cfg, s, op.now, op.ip, op.sid, op.n);
    hide TryTake, Recorded;
  }

  lemma PruneOccupied(cfg: Config, t0: real, ops: seq<Op>, ip: Ip, now: real)
    requires cfg.NonNegative() && !ip.IsUnspecified() && Ordered(t0, ops) && EndTime(t0, ops) <= now
    ensures var s := Run(cfg, New(cfg, t0), ops);
            ip in Prune(cfg, s, now).ips
            <==> ip in s.ips && PassedWithin(Passes(cfg, New(cfg, t0), ops, ip), now, cfg.ipSessionWindow) != {}
  {
    var s := Run(cfg, New(cfg, t0), ops);
    LiveIsPassed(cfg, t0, ops, ip, now);
    hide Run, Passes, PassedWithin, New, Live;
    assert ip in s.ips ==> (Live(s.ips[ip], now, cfg.ipSessionWindow).Keys == {}
                            <==> Live(s.ips[ip], now, cfg.ipSessionWindow) == map[]);
  }

  lemma EarlierReaches(cfg: Config, t0: real, ops: seq<Op>, ip: Ip, i: nat)
    requires ops != [] && i < |ops| - 1
    ensures Reaches(cfg, t0, ops, ip, i) <==> Reaches(cfg, t0, ops[..|ops| - 1], ip, i)
    ensures var (front, op) := (ops[..|ops| - 1], ops[|ops| - 1]);
            Occupied(cfg, t0, ops, ip, i)
            <==> && Occupied(cfg, t0, front, ip, i)
                 && (op.DoPrune? ==>
                       PassedWithin(Passes(cfg, New(cfg, t0), front, ip), op.now, cfg.ipSessionWindow) != {})
  {
    hide Run, Passes, PassedWithin, Check;
    assert forall j :: 0 <= j < |ops| ==> ops[..|ops| - 1][..j] == ops[..j];
  }

  lemma TrackedIpStep(cfg: Config, t0: real, ops: seq<Op>, ip: Ip)
    requires cfg.NonNegative() && ops != [] && Ordered(t0, ops)
    requires ip in Run(cfg, New(cfg, t0), ops[..|ops| - 1]).ips <==> ReachedLately(cfg, t0, ops[..|ops| - 1], ip)
    ensures ip in Run(cfg, New(cfg, t0), ops).ips <==> ReachedLately(cfg, t0, ops, ip)
  {
    var n, front, op := |ops| - 1, ops[..|ops| - 1], ops[|ops| - 1];
    var s := Run(cfg, New(cfg, t0), front);
    var after := Step(cfg, s, op).ips;
    LastStep(cfg, New(cfg, t0), t0, ops);
    LastReaches(cfg, t0, ops, ip);
    hide Step, Run, Reaches, Occupied, Passes, PassedWithin, Check, New, Ordered, EndTime;
    if ip in after && !Reaches(cfg, t0, ops, ip, n) {
      var i :| 0 <= i < n && Reaches(cfg, t0, front, ip, i) && Occupied(cfg, t0, front, ip, i);
      EarlierReaches(cfg, t0, ops, ip, i);
    }
    if ReachedLately(cfg, t0, ops, ip) {
      var i :| 0 <= i < |ops| && Reaches(cfg, t0, ops, ip, i) && Occupied(cfg, t0, ops, ip, i);
      if i < n {
        EarlierReaches(cfg, t0, ops, ip, i);
        assert ReachedLately(cfg, t0, front, ip);
      }
    }
  }

  /** The last operation: a check that reaches the window, or a prune that keeps what is occupied. */
  lemma LastReaches(cfg: Config, t0: real, ops: seq<Op>, ip: Ip)
    requires cfg.NonNegative() && ops != [] && Ordered(t0, ops)
    ensures var (n, front, op) := (|ops| - 1, ops[..|ops| - 1], ops[|ops| - 1]);
            var (before, after) := (Run(cfg, New(cfg, t0), front).ips, Run(cfg, New(cfg, t0), ops).ips);
            && Occupied(cfg, t0, ops, ip, n) && (Reaches(cfg, t0, ops, ip, n) ==> ip in after)
            && (op.DoCheck? && !Reaches(cfg, t0, ops, ip, n) ==> (ip in after <==> ip in before))
            && (op.DoPrune? && ip.IsUnspecified() ==> ip in after ==> ip in before)
            && (op.DoPrune? && !ip.IsUnspecified() ==>
                  (ip in after <==> && ip in before
                                    && PassedWithin(Passes(cfg, New(cfg, t0), front, ip), op.now, cfg.ipSessionWindow)
                                       != {}))
  {
    var n, front, op := |ops| - 1, ops[..|ops| - 1], ops[|ops| - 1];
    var s := Run(cfg, New(cfg, t0), front);
    LastStep(cfg, New(cfg, t0), t0, ops);
    if op.DoCheck? {
      CheckReaches(cfg, s, op, ip);
    } else if !ip.IsUnspecified() {
      PruneOccupied(cfg, t0, front, ip, op.now);
    }
    hide Run, Passes, PassedWithin, Check, New, Ordered, EndTime;
  }

  /** An address is tracked exactly when a check has reached its window, and no prune since found that empty. */
  lemma {:induction false} TrackedIpExactly(cfg: Config, t0: real, ops: seq<Op>, ip: Ip)
    requires cfg.NonNegative() && Ordered(t0, ops)
    ensures ip in Run(cfg, New(cfg, t0), ops).ips <==> ReachedLately(cfg, t0, ops, ip)
    decreases |ops|
  {
    if ops != [] {
      LastStep(cfg, New(cfg, t0), t0, ops);
      hide Step, Run, ReachedLately;
      TrackedIpExactly(cfg, t0, ops[..|ops| - 1], ip);
      TrackedIpStep(cfg, t0, ops, ip);
    }
  }

  // ---------------------------------------------------------------- the delay

  /** A window is as full, without the session, until its oldest entry leaves. */
  lemma StaysFull(sessions: map<string, real>, sid: string, now: real, cap: nat, window: real, later: real)
    requires |sessions| <= cap && forall k :: k in sessions ==> sessions[k] <= now
    requires var r := Recorded(sessions, sid, now, cap, window).1;
             r.Wait? && r.secs > 1.0 && now <= later < now + r.secs
    ensures Recorded(Recorded(sessions, sid, now, cap, window).0, sid, later, cap, window).1.Wait?
  {
    var live := Live(sessions, now, window);
    var age := OldestAge(live, now, window);
    assert live != map[] ==> IsOldest(live, now, age);
    assert Live(live, later, window) == live;
  }

  lemma EarlierIsRefused(b: BucketState, rate: real, burst: real, n: real, now: real, later: real)
    requires rate >= 0.0 && b.last <= now
    requires var r := TryTake(b, rate, burst, n, now).1; r.Wait? && now <= later < now + r.secs
    ensures TryTake(TryTake(b, rate, burst, n, now).0, rate, burst, n, later).1.Wait?
  {
    var full := Refill(b, rate, burst, now);
    var deficit := n - full.tokens;
    if rate > 0.0 {
      assert Earned(rate, deficit / rate) == deficit;
      EarnedStrictly(rate, later - now, deficit / rate);
    } else {
      EarnedIs(rate, later - now);
    }
  }

  lemma EarnedStrictly(rate: real, a: real, b: real)
    requires rate > 0.0 && a < b
    ensures Earned(rate, a) < Earned(rate, b)
  {
  }

  /** Whole seconds that are at least 2 are less than one second more than the wait. */
  lemma AnnouncedIsTight(wait: real)
    ensures RetryAfter(wait) >= 2 ==> wait > (RetryAfter(wait) - 1) as real
  {
  }

  lemma SessionDelayed(cfg: Config, s: Limiter, now: real, ip: Ip, sid: string, n: u32, later: real)
    requires cfg.NonNegative() && SessionsInv(cfg, s.sessions, now)
    requires var d := Check(cfg, s, now, ip, sid, n).1;
             d.Deny? && d.scope == SessionScope && d.retryAfterSecs >= 2
             && now <= later <= now + (d.retryAfterSecs - 1) as real
    ensures !PassedSession(Check(cfg, Check(cfg, s, now, ip, sid, n).0, later, ip, sid, n).1)
  {
    var s1, b := Check(cfg, s, now, ip, sid, n).0, BucketOf(cfg, s.sessions, sid, now);
    var r := TryTake(b, cfg.sessionPerSec, cfg.sessionBurst, Cost(n), now).1;
    SessionLevelDecides(cfg, s, now, ip, sid, n);
    SessionLevelDecides(cfg, s1, later, ip, sid, n);
    assert r.Wait? && Check(cfg, s, now, ip, sid, n).1.retryAfterSecs == RetryAfter(r.secs);
    AnnouncedIsTight(r.secs);
    EarlierIsRefused(b, cfg.sessionPerSec, cfg.sessionBurst, Cost(n), now, later);
    hide Check, TryTake;
  }

  lemma IpDelayed(cfg: Config, s: Limiter, now: real, ip: Ip, sid: string, n: u32, later: real)
    requires IpsInv(cfg, s.ips, now)
    requires var d := Check(cfg, s, now, ip, sid, n).1;
             d.Deny? && d.scope == IpScope && d.retryAfterSecs >= 2
             && now <= later <= now + (d.retryAfterSecs - 1) as real
    ensures IpLevel(cfg, Check(cfg, s, now, ip, sid, n).0.ips, later, ip, sid).1.Some?
  {
    var w := WindowOf(s.ips, ip);
    var (w1, r) := Recorded(w, sid, now, cfg.ipSessionCap, cfg.ipSessionWindow);
    DeniedByWindow(cfg, s, now, ip, sid, n);
    AnnouncedIsTight(r.secs);
    StaysFull(w, sid, now, cfg.ipSessionCap, cfg.ipSessionWindow, later);
    IpsAfterCheck(cfg, s, now, ip, sid, n);
    hide Check, Recorded;
  }

  lemma GlobalDelayed(cfg: Config, s: Limiter, now: real, ip: Ip, sid: string, n: u32, later: real)
    requires cfg.NonNegative() && BucketInv(s.global, cfg.globalBurst, now)
    requires var d := Check(cfg, s, now, ip, sid, n).1;
             d.Deny? && d.scope == GlobalScope && d.retryAfterSecs >= 2
             && now <= later <= now + (d.retryAfterSecs - 1) as real
    ensures Check(cfg, Check(cfg, s, now, ip, sid, n).0, later, ip, sid, n).1.Deny?
  {
    var s1 := Check(cfg, s, now, ip, sid, n).0;
    var r := TryTake(s.global, cfg.globalPerSec, cfg.globalBurst, Units(n), now).1;
    FinerDenialsSpareGlobal(cfg, s, now, ip, sid, n);
    FinerDenialsSpareGlobal(cfg, s1, later, ip, sid, n);
    assert r.Wait? && Check(cfg, s, now, ip, sid, n).1.retryAfterSecs == RetryAfter(r.secs) by {
      hide TryTake, Recorded;
    }
    AnnouncedIsTight(r.secs);
    EarlierIsRefused(s.global, cfg.globalPerSec, cfg.globalBurst, Units(n), now, later);
    hide Check, TryTake;
  }

  /** No delay is longer than it has to be: a second earlier, whichever level refused, the retry is refused again. */
  lemma DelayIsLeast(cfg: Config, s: Limiter, t: real, now: real, ip: Ip, sid: string, n: u32, later: real)
    requires cfg.NonNegative() && Inv(cfg, s, t) && t <= now
    requires var d := Check(cfg, s, now, ip, sid, n).1;
             d.Deny? && d.retryAfterSecs >= 2 && now <= later <= now + (d.retryAfterSecs - 1) as real
    ensures Check(cfg, Check(cfg, s, now, ip, sid, n).0, later, ip, sid, n).1.Deny?
  {
    InvLater(cfg, s, t, now);
    hide Check;
    match Check(cfg, s, now, ip, sid, n).1.scope
    case SessionScope => SessionDelayed(cfg, s, now, ip, sid, n, later);
    case IpScope =>
      IpDelayed(cfg, s, now, ip, sid, n, later);
      IpLevelDecides(cfg, Check(cfg, s, now, ip, sid, n).0, later, ip, sid, n);
    case GlobalScope => GlobalDelayed(cfg, s, now, ip, sid, n, later);
  }

  /** It is also enough for the global bucket, if nothing is allowed in between. */
  lemma GlobalRetrySucceeds(cfg: Config, s: Limiter, t: real, now: real, ip: Ip, sid: string, n: u32, later: real)
    requires cfg.NonNegative() && cfg.globalPerSec > 0.0 && Units(n) <= cfg.globalBurst && Inv(cfg, s, t) && t <= now
    requires var d := Check(cfg, s, now, ip, sid, n).1;
             d.Deny? && d.scope == GlobalScope && d.retryAfterSecs < U64_MAX
             && later >= now + d.retryAfterSecs as real
    ensures var d := Check(cfg, Check(cfg, s, now, ip, sid, n).0, later, ip, sid, n).1;
            d.Allow? || d.scope != GlobalScope
  {
    var s1 := Check(cfg, s, now, ip, sid, n).0;
    var r := TryTake(s.global, cfg.globalPerSec, cfg.globalBurst, Units(n), now).1;
    FinerDenialsSpareGlobal(cfg, s, now, ip, sid, n);
    FinerDenialsSpareGlobal(cfg, s1, later, ip, sid, n);
    assert r.Wait? && Check(cfg, s, now, ip, sid, n).1.retryAfterSecs == RetryAfter(r.secs) by {
      hide TryTake, Recorded;
    }
    TokenBucket.WaitSuffices(s.global, cfg.globalPerSec, cfg.globalBurst, Units(n), now, later);
    hide Check, TryTake;
  }

  /** Who finds a full map is told to come back in a second. */
  lemma FullMapSaysOneSecond(cfg: Config, s: Limiter, now: real, ip: Ip, sid: string, n: u32)
    ensures !HasRoom(cfg, s, sid) ==> Check(cfg, s, now, ip, sid, n) == (s, Deny(SessionScope, 1))
    ensures var (s', d) := Check(cfg, s, now, ip, sid, n);
            PassedSession(d) && !ip.IsUnspecified() && ip !in s.ips && |s.ips| >= cfg.maxTrackedIps ==>
              d == Deny(IpScope, 1) && s'.ips == s.ips
  {
    hide TryTake, Recorded;
    assert RetryAfter(1.0) == 1;
  }

  /** Without a rate no delay is enough, and the longest that fits 32 bits is announced. */
  lemma ZeroRateSaysForever(cfg: Config, s: Limiter, now: real, ip: Ip, sid: string, n: u32)
    requires HasRoom(cfg, s, sid)
    ensures var d := Check(cfg, s, now, ip, sid, n).1;
            && (cfg.sessionPerSec == 0.0 && d.Deny? && d.scope == SessionScope ==> d.retryAfterSecs == 0xFFFF_FFFF)
            && (cfg.globalPerSec == 0.0 && d.Deny? && d.scope == GlobalScope ==> d.retryAfterSecs == 0xFFFF_FFFF)
  {
    hide Recorded, Refill;
    assert RetryAfter(U32_MAX as real) == 0xFFFF_FFFF;
  }
}
