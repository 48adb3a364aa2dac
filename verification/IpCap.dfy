/** At most `ipSessionCap` distinct sessions pass the IP level in any window of any run. */
module IpCap {
  import opened Common
  import opened TokenBucket
  import opened IpWindow
  import opened RateLimit

  predicate PassedIp(d: Decision) {
    d.Allow? || d.scope == GlobalScope
  }

  /** The sessions that pass the IP level for `ip`, each with the instant it does. */
  ghost function Passes(cfg: Config, s: Limiter, ops: seq<Op>, ip: Ip): set<(string, real)>
    decreases |ops|
  {
    if ops == [] then {}
    else
      var op := ops[0];
      (if op.DoCheck? && op.ip == ip && PassedIp(Check(cfg, s, op.now, op.ip, op.sid, op.n).1)
       then {(op.sid, op.now)} else {})
      + Passes(cfg, Step(cfg, s, op), ops[1..], ip)
  }

  /** The distinct sessions among them in the half-open window (t - w, t]. */
  ghost function PassedWithin(passes: set<(string, real)>, t: real, w: real): set<string> {
    set p | p in passes && t - w < p.1 <= t :: p.0
  }

  /** The window still holds the pass of `sid` at `since`, unless it has left the window by `now`. */
  ghost predicate Remembers(cfg: Config, s: Limiter, ip: Ip, sid: string, since: real, now: real) {
    Elapsed(since, now) < cfg.ipSessionWindow ==>
      sid in WindowOf(s.ips, ip) && WindowOf(s.ips, ip)[sid] >= since
  }

  lemma IpsAfterCheck(cfg: Config, s: Limiter, now: real, ip: Ip, sid: string, n: u32)
    ensures Check(cfg, s, now, ip, sid, n).0.ips == s.ips
         || Check(cfg, s, now, ip, sid, n).0.ips == IpLevel(cfg, s.ips, now, ip, sid).0
    ensures PassedIp(Check(cfg, s, now, ip, sid, n).1) ==>
              && Check(cfg, s, now, ip, sid, n).0.ips == IpLevel(cfg, s.ips, now, ip, sid).0
              && IpLevel(cfg, s.ips, now, ip, sid).1.None?
  {
    hide TryTake, Recorded;
  }

  lemma StepRemembers(cfg: Config, s: Limiter, op: Op, ip: Ip, sid: string, since: real, t: real)
    requires since <= t <= op.now && IpsInv(cfg, s.ips, t)
    requires Remembers(cfg, s, ip, sid, since, t)
    ensures Remembers(cfg, Step(cfg, s, op), ip, sid, since, op.now)
  {
    if op.DoCheck? {
      IpsAfterCheck(cfg, s, op.now, op.ip, op.sid, op.n);
    }
  }

  lemma {:induction false} RunRemembers(cfg: Config, s: Limiter, t: real, ops: seq<Op>, ip: Ip, sid: string,
                                        since: real)
    requires cfg.NonNegative() && since <= t && Inv(cfg, s, t) && Ordered(t, ops)
    requires Remembers(cfg, s, ip, sid, since, t)
    ensures Remembers(cfg, Run(cfg, s, ops), ip, sid, since, EndTime(t, ops))
    decreases |ops|
  {
    if ops != [] {
      StepRemembers(cfg, s, ops[0], ip, sid, since, t);
      StepKeepsInv(cfg, s, t, ops[0]);
      RunRemembers(cfg, Step(cfg, s, ops[0]), ops[0].now, ops[1..], ip, sid, since);
    }
  }

  lemma PassIsRemembered(cfg: Config, s: Limiter, now: real, ip: Ip, sid: string, n: u32)
    requires !ip.IsUnspecified() && PassedIp(Check(cfg, s, now, ip, sid, n).1)
    ensures Remembers(cfg, Check(cfg, s, now, ip, sid, n).0, ip, sid, now, now)
  {
    IpsAfterCheck(cfg, s, now, ip, sid, n);
  }

  /** Every pass of a run that is still inside the window at the end is in the window then. */
  lemma {:induction false} PassesAreRemembered(cfg: Config, s: Limiter, t: real, ops: seq<Op>, ip: Ip,
                                               p: (string, real))
    requires cfg.NonNegative() && !ip.IsUnspecified() && Inv(cfg, s, t) && Ordered(t, ops)
    requires p in Passes(cfg, s, ops, ip)
    ensures p.1 <= EndTime(t, ops)
    ensures Remembers(cfg, Run(cfg, s, ops), ip, p.0, p.1, EndTime(t, ops))
    decreases |ops|
  {
    var op, s' := ops[0], Step(cfg, s, ops[0]);
    StepKeepsInv(cfg, s, t, op);
    assert Run(cfg, s, ops) == Run(cfg, s', ops[1..]) && EndTime(t, ops) == EndTime(op.now, ops[1..]);
    assert Ordered(op.now, ops[1..]);
    assert p in Passes(cfg, s', ops[1..], ip) || (op.DoCheck? && op.ip == ip && p == (op.sid, op.now));
    hide Run, EndTime, Ordered, Inv, Passes, Remembers, Check, Prune;
    if p in Passes(cfg, s', ops[1..], ip) {
      PassesAreRemembered(cfg, s', op.now, ops[1..], ip, p);
    } else {
      PassIsRemembered(cfg, s, op.now, ip, op.sid, op.n);
      RunRemembers(cfg, s', op.now, ops[1..], ip, op.sid, op.now);
      OrderedEnd(op.now, ops[1..]);
    }
  }

  /** The part of a run up to and including the instant t. */
  ghost function UpTo(ops: seq<Op>, t: real): seq<Op>
  {
    if ops == [] || ops[0].now > t then [] else [ops[0]] + UpTo(ops[1..], t)
  }

  lemma {:induction false} UpToShape(t0: real, ops: seq<Op>, t: real)
    requires Ordered(t0, ops) && t0 <= t
    ensures Ordered(t0, UpTo(ops, t)) && EndTime(t0, UpTo(ops, t)) <= t
    decreases |ops|
  {
    if ops != [] && ops[0].now <= t {
      UpToShape(ops[0].now, ops[1..], t);
      assert UpTo(ops, t)[1..] == UpTo(ops[1..], t);
    }
  }

  lemma {:induction false} LaterPasses(cfg: Config, s: Limiter, t0: real, ops: seq<Op>, ip: Ip, p: (string, real))
    requires Ordered(t0, ops) && p in Passes(cfg, s, ops, ip)
    ensures t0 <= p.1
    decreases |ops|
  {
    if p in Passes(cfg, Step(cfg, s, ops[0]), ops[1..], ip) {
      LaterPasses(cfg, Step(cfg, s, ops[0]), ops[0].now, ops[1..], ip, p);
    }
  }

  lemma {:induction false} EarlyPasses(cfg: Config, s: Limiter, t0: real, ops: seq<Op>, ip: Ip, t: real,
                                       p: (string, real))
    requires Ordered(t0, ops) && p in Passes(cfg, s, ops, ip) && p.1 <= t
    ensures p in Passes(cfg, s, UpTo(ops, t), ip)
    decreases |ops|
  {
    var s' := Step(cfg, s, ops[0]);
    LaterPasses(cfg, s, ops[0].now, ops, ip, p);
    assert UpTo(ops, t)[1..] == UpTo(ops[1..], t);
    if p in Passes(cfg, s', ops[1..], ip) {
      EarlyPasses(cfg, s', ops[0].now, ops[1..], ip, t, p);
    }
  }

  lemma SlidingWindowCap(cfg: Config, t0: real, ops: seq<Op>, ip: Ip, t: real)
    requires cfg.NonNegative() && !ip.IsUnspecified() && Ordered(t0, ops) && t0 <= t
    ensures |PassedWithin(Passes(cfg, New(cfg, t0), ops, ip), t, cfg.ipSessionWindow)| <= cfg.ipSessionCap
  {
    var start, early := New(cfg, t0), UpTo(ops, t);
    var end := Run(cfg, start, early);
    assert Inv(cfg, start, t0);
    UpToShape(t0, ops, t);
    RunKeepsInv(cfg, start, t0, early);
    var passes := Passes(cfg, start, ops, ip);
    forall p | p in passes && t - cfg.ipSessionWindow < p.1 <= t ensures p.0 in WindowOf(end.ips, ip) {
      EarlyPasses(cfg, start, t0, ops, ip, t, p);
      PassesAreRemembered(cfg, start, t0, early, ip, p);
    }
    SubsetSize(PassedWithin(passes, t, cfg.ipSessionWindow), WindowOf(end.ips, ip).Keys);
    assert |WindowOf(end.ips, ip)| == |WindowOf(end.ips, ip).Keys|;
  }
}
