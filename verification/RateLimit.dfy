/**
 * The three levels of the admission control as functions on its state: a token bucket per session,
 * a window of distinct sessions per IP, and a global bucket that is debited last.
 */
module RateLimit {
  import opened Common
  import opened TokenBucket
  import opened IpWindow

  datatype Config = Config(
    globalPerSec: real,
    globalBurst: real,
    sessionPerSec: real,
    sessionBurst: real,
    ipSessionCap: nat,
    ipSessionWindow: real,
    maxTrackedSessions: nat,
    maxTrackedIps: nat)
  {
    ghost predicate NonNegative() {
      globalPerSec >= 0.0 && globalBurst >= 0.0 && sessionPerSec >= 0.0 && sessionBurst >= 0.0
    }

    /** How long an idle session is remembered. */
    function SessionTtl(): real {
      MaxReal(ipSessionWindow, 300.0) * 2.0
    }
  }

  datatype Scope = SessionScope | IpScope | GlobalScope

  datatype Decision = Allow | Deny(scope: Scope, retryAfterSecs: nat)

  datatype SessionState = SessionState(bucket: BucketState, lastSeen: real)

  datatype Limiter = Limiter(
    global: BucketState,
    sessions: map<string, SessionState>,
    ips: map<Ip, map<string, real>>)

  function New(cfg: Config, now: real): Limiter {
    Limiter(BucketState(cfg.globalBurst, now), map[], map[])
  }

  function Cost(n: u32): real {
    Max(n, 1) as real
  }

  function DenyWith(scope: Scope, r: TakeResult): Option<Decision> {
    match r
    case Taken => None
    case Wait(secs) => Some(Deny(scope, RetryAfter(secs)))
  }

  /** The bucket a session is charged against: a session that is not tracked starts full. */
  function BucketOf(cfg: Config, sessions: map<string, SessionState>, sid: string, now: real): BucketState {
    if sid in sessions then sessions[sid].bucket else BucketState(cfg.sessionBurst, now)
  }

  function SessionLevel(cfg: Config, sessions: map<string, SessionState>, now: real, sid: string, n: u32)
    : (map<string, SessionState>, Option<Decision>)
  {
    if sid !in sessions && |sessions| >= cfg.maxTrackedSessions then
      (sessions, Some(Deny(SessionScope, RetryAfter(1.0))))
    else
      var (b, r) := TryTake(BucketOf(cfg, sessions, sid, now), cfg.sessionPerSec, cfg.sessionBurst, Cost(n), now);
      (sessions[sid := SessionState(b, now)], DenyWith(SessionScope, r))
  }

  function WindowOf(ips: map<Ip, map<string, real>>, ip: Ip): map<string, real> {
    if ip in ips then ips[ip] else map[]
  }

  ghost function IpLevel(cfg: Config, ips: map<Ip, map<string, real>>, now: real, ip: Ip, sid: string)
    : (map<Ip, map<string, real>>, Option<Decision>)
  {
    if ip.IsUnspecified() then (ips, None)
    else if ip !in ips && |ips| >= cfg.maxTrackedIps then
      (ips, Some(Deny(IpScope, RetryAfter(1.0))))
    else
      var (w, r) := Recorded(WindowOf(ips, ip), sid, now, cfg.ipSessionCap, cfg.ipSessionWindow);
      (ips[ip := w], DenyWith(IpScope, r))
  }

  ghost function Check(cfg: Config, s: Limiter, now: real, ip: Ip, sid: string, n: u32): (Limiter, Decision) {
    var (sessions, d1) := SessionLevel(cfg, s.sessions, now, sid, n);
    var s1 := s.(sessions := sessions);
    if d1.Some? then (s1, d1.value)
    else
      var (ips, d2) := IpLevel(cfg, s1.ips, now, ip, sid);
      var s2 := s1.(ips := ips);
      if d2.Some? then (s2, d2.value)
      else
        var (g, r) := TryTake(s2.global, cfg.globalPerSec, cfg.globalBurst, Cost(n), now);
        var d3 := DenyWith(GlobalScope, r);
        (s2.(global := g), if d3.Some? then d3.value else Allow)
  }

  function PruneSessions(cfg: Config, sessions: map<string, SessionState>, now: real): map<string, SessionState> {
    map k | k in sessions && Elapsed(sessions[k].lastSeen, now) < cfg.SessionTtl() :: sessions[k]
  }

  function LiveIps(cfg: Config, ips: map<Ip, map<string, real>>, now: real): map<Ip, map<string, real>> {
    map ip | ip in ips :: Live(ips[ip], now, cfg.ipSessionWindow)
  }

  function PruneIps(cfg: Config, ips: map<Ip, map<string, real>>, now: real): map<Ip, map<string, real>> {
    var live := LiveIps(cfg, ips, now);
    map ip | ip in live && live[ip] != map[] :: live[ip]
  }

  function Prune(cfg: Config, s: Limiter, now: real): Limiter {
    s.(sessions := PruneSessions(cfg, s.sessions, now), ips := PruneIps(cfg, s.ips, now))
  }

  // ---------------------------------------------------------------- runs

  datatype Op = DoCheck(now: real, ip: Ip, sid: string, n: u32) | DoPrune(now: real)

  ghost function Step(cfg: Config, s: Limiter, op: Op): Limiter {
    match op
    case DoCheck(now, ip, sid, n) => Check(cfg, s, now, ip, sid, n).0
    case DoPrune(now) => Prune(cfg, s, now)
  }

  ghost function Run(cfg: Config, s: Limiter, ops: seq<Op>): Limiter
    decreases |ops|
  {
    if ops == [] then s else Run(cfg, Step(cfg, s, ops[0]), ops[1..])
  }

  /** What the callers see: one decision per check, none for a prune. */
  ghost function Decisions(cfg: Config, s: Limiter, ops: seq<Op>): seq<Decision>
    decreases |ops|
  {
    if ops == [] then []
    else
      var later := Decisions(cfg, Step(cfg, s, ops[0]), ops[1..]);
      if ops[0].DoPrune? then later
      else [Check(cfg, s, ops[0].now, ops[0].ip, ops[0].sid, ops[0].n).1] + later
  }

  /** The run without its prunes. */
  ghost function Checks(ops: seq<Op>): (cs: seq<Op>)
    ensures |cs| <= |ops|
  {
    if ops == [] then []
    else if ops[0].DoPrune? then Checks(ops[1..])
    else [ops[0]] + Checks(ops[1..])
  }

  /** The clock never steps back, and starts no earlier than t. */
  ghost predicate Ordered(t: real, ops: seq<Op>)
    decreases |ops|
  {
    ops == [] || (t <= ops[0].now && Ordered(ops[0].now, ops[1..]))
  }

  ghost predicate BucketInv(b: BucketState, burst: real, now: real) {
    0.0 <= b.tokens <= burst && b.last <= now
  }

  ghost predicate SessionsInv(cfg: Config, sessions: map<string, SessionState>, now: real) {
    forall k :: k in sessions ==>
      && BucketInv(sessions[k].bucket, cfg.sessionBurst, now)
      && sessions[k].lastSeen == sessions[k].bucket.last
      && (cfg.sessionBurst < 1.0 ==> sessions[k].bucket.tokens == cfg.sessionBurst)
  }

  ghost predicate WindowInv(w: map<string, real>, cap: nat, now: real) {
    |w| <= cap && forall k :: k in w ==> w[k] <= now
  }

  ghost predicate IpsInv(cfg: Config, ips: map<Ip, map<string, real>>, now: real) {
    forall ip :: ip in ips ==> WindowInv(ips[ip], cfg.ipSessionCap, now)
  }

  /** What every reachable state satisfies at an instant no earlier than its last operation. */
  ghost predicate Inv(cfg: Config, s: Limiter, now: real) {
    BucketInv(s.global, cfg.globalBurst, now) && SessionsInv(cfg, s.sessions, now) && IpsInv(cfg, s.ips, now)
  }

  lemma TakeKeepsInv(b: BucketState, rate: real, burst: real, n: real, t: real, now: real)
    requires rate >= 0.0 && n >= 0.0 && BucketInv(b, burst, t) && t <= now
    ensures BucketInv(Refill(b, rate, burst, now), burst, now)
    ensures BucketInv(TryTake(b, rate, burst, n, now).0, burst, now)
    ensures TryTake(b, rate, burst, n, now).0.last == now
  {
    EarnedMonotone(rate, 0.0, Elapsed(b.last, now));
  }

  lemma SessionLevelKeepsInv(cfg: Config, sessions: map<string, SessionState>, t: real, now: real, sid: string, n: u32)
    requires cfg.NonNegative() && SessionsInv(cfg, sessions, t) && t <= now
    ensures SessionsInv(cfg, SessionLevel(cfg, sessions, now, sid, n).0, now)
  {
    var b := BucketOf(cfg, sessions, sid, now);
    TakeKeepsInv(b, cfg.sessionPerSec, cfg.sessionBurst, Cost(n), now, now);
    EarnedMonotone(cfg.sessionPerSec, 0.0, Elapsed(b.last, now));
  }

  lemma RecordedKeepsInv(w: map<string, real>, sid: string, cap: nat, window: real, t: real, now: real)
    requires WindowInv(w, cap, t) && t <= now
    ensures WindowInv(Recorded(w, sid, now, cap, window).0, cap, now)
  {
    RecordedBounds(w, sid, now, cap, window);
  }

  lemma IpLevelKeepsInv(cfg: Config, ips: map<Ip, map<string, real>>, t: real, now: real, ip: Ip, sid: string)
    requires IpsInv(cfg, ips, t) && t <= now
    ensures IpsInv(cfg, IpLevel(cfg, ips, now, ip, sid).0, now)
  {
    RecordedKeepsInv(WindowOf(ips, ip), sid, cfg.ipSessionCap, cfg.ipSessionWindow, t, now);
  }

  lemma CheckKeepsInv(cfg: Config, s: Limiter, t: real, now: real, ip: Ip, sid: string, n: u32)
    requires cfg.NonNegative() && Inv(cfg, s, t) && t <= now
    ensures Inv(cfg, Check(cfg, s, now, ip, sid, n).0, now)
  {
    SessionLevelKeepsInv(cfg, s.sessions, t, now, sid, n);
    IpLevelKeepsInv(cfg, s.ips, t, now, ip, sid);
    TakeKeepsInv(s.global, cfg.globalPerSec, cfg.globalBurst, Cost(n), t, now);
  }

  lemma PruneKeepsInv(cfg: Config, s: Limiter, t: real, now: real)
    requires Inv(cfg, s, t) && t <= now
    ensures Inv(cfg, Prune(cfg, s, now), now)
  {
    forall ip | ip in s.ips {
      SubsetSize(Live(s.ips[ip], now, cfg.ipSessionWindow).Keys, s.ips[ip].Keys);
    }
  }

  lemma StepKeepsInv(cfg: Config, s: Limiter, t: real, op: Op)
    requires cfg.NonNegative() && Inv(cfg, s, t) && t <= op.now
    ensures Inv(cfg, Step(cfg, s, op), op.now)
  {
    match op
    case DoCheck(now, ip, sid, n) => CheckKeepsInv(cfg, s, t, now, ip, sid, n);
    case DoPrune(now) => PruneKeepsInv(cfg, s, t, now);
  }

  /** The instant of the last operation of a run that starts at t. */
  ghost function EndTime(t: real, ops: seq<Op>): real {
    if ops == [] then t else ops[|ops| - 1].now
  }

  lemma {:induction false} RunKeepsInv(cfg: Config, s: Limiter, t: real, ops: seq<Op>)
    requires cfg.NonNegative() && Inv(cfg, s, t) && Ordered(t, ops)
    ensures Inv(cfg, Run(cfg, s, ops), EndTime(t, ops))
    decreases |ops|
  {
    if ops != [] {
      StepKeepsInv(cfg, s, t, ops[0]);
      RunKeepsInv(cfg, Step(cfg, s, ops[0]), ops[0].now, ops[1..]);
    }
  }

  lemma {:induction false} RunSplit(cfg: Config, s: Limiter, a: seq<Op>, b: seq<Op>)
    ensures Run(cfg, s, a + b) == Run(cfg, Run(cfg, s, a), b)
    decreases |a|
  {
    if a == [] {
      assert a + b == b;
    } else {
      assert (a + b)[1..] == a[1..] + b;
      RunSplit(cfg, Step(cfg, s, a[0]), a[1..], b);
    }
  }

  lemma {:induction false} OrderedSplit(t: real, a: seq<Op>, b: seq<Op>)
    ensures Ordered(t, a + b) <==> Ordered(t, a) && Ordered(EndTime(t, a), b)
    decreases |a|
  {
    if a == [] {
      assert a + b == b;
    } else {
      assert (a + b)[1..] == a[1..] + b;
      OrderedSplit(a[0].now, a[1..], b);
    }
  }

  lemma {:induction false} DecisionsSplit(cfg: Config, s: Limiter, a: seq<Op>, b: seq<Op>)
    ensures Decisions(cfg, s, a + b) == Decisions(cfg, s, a) + Decisions(cfg, Run(cfg, s, a), b)
    decreases |a|
  {
    if a == [] {
      assert a + b == b;
    } else {
      assert (a + b)[1..] == a[1..] + b;
      DecisionsSplit(cfg, Step(cfg, s, a[0]), a[1..], b);
    }
  }

  lemma {:induction false} OrderedEnd(t: real, ops: seq<Op>)
    requires Ordered(t, ops)
    ensures t <= EndTime(t, ops)
    decreases |ops|
  {
    if ops != [] {
      OrderedEnd(ops[0].now, ops[1..]);
    }
  }
}
