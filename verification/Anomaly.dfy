/**
 * The anomaly guard: counts the bad requests of an IP in a window and bans the IP when they reach a threshold.
 * Both maps are bounded; a full map makes room by evicting an entry that is minimal for its instant. Which one
 * of several minimal entries goes depends on the iteration order of the map, so it is a parameter here.
 */
module Anomaly {
  import opened Common
  import opened TokenBucket

  datatype GuardConfig = GuardConfig(threshold: u32, window: real, banDuration: real, maxTrackedIps: nat) {
    ghost predicate NonNegative() {
      window >= 0.0 && banDuration >= 0.0
    }

    /** The number of bad requests that bans; a threshold of 0 acts like 1. */
    function Needed(): (n: nat)
      ensures 1 <= n <= U32_MAX
    {
      Max(threshold, 1)
    }

    /** How many entries a map can hold; a capacity of 0 acts like 1. */
    function Room(): (n: nat)
      ensures 1 <= n
    {
      Max(maxTrackedIps, 1)
    }
  }

  datatype BadWindow = BadWindow(count: nat, start: real)

  datatype Guard = Guard(bad: map<Ip, BadWindow>, banned: map<Ip, real>)

  const Unused := Guard(map[], map[])

  /** The entries evicted to make room, if any are. */
  datatype Victims = Victims(bad: Ip, banned: Ip)

  function FreshWindows(bad: map<Ip, BadWindow>, now: real, age: real): map<Ip, BadWindow> {
    map k | k in bad && Elapsed(bad[k].start, now) < age :: bad[k]
  }

  function ActiveBans(banned: map<Ip, real>, now: real): map<Ip, real> {
    map k | k in banned && banned[k] > now :: banned[k]
  }

  ghost predicate OldestWindow(bad: map<Ip, BadWindow>, k: Ip) {
    k in bad && forall j :: j in bad ==> bad[k].start <= bad[j].start
  }

  ghost predicate SoonestBan(banned: map<Ip, real>, k: Ip) {
    k in banned && forall j :: j in banned ==> banned[k] <= banned[j]
  }

  /** `ensure_bad_headroom` */
  function BadHeadroom(cfg: GuardConfig, bad: map<Ip, BadWindow>, ip: Ip, now: real, victim: Ip): map<Ip, BadWindow> {
    if ip in bad || |bad| < cfg.maxTrackedIps then bad
    else
      var kept := FreshWindows(bad, now, cfg.window);
      if |kept| < cfg.maxTrackedIps then kept else kept - {victim}
  }

  ghost predicate LegalBadVictim(cfg: GuardConfig, bad: map<Ip, BadWindow>, ip: Ip, now: real, victim: Ip) {
    var kept := FreshWindows(bad, now, cfg.window);
    ip in bad || |bad| < cfg.maxTrackedIps || |kept| < cfg.maxTrackedIps || kept == map[] || OldestWindow(kept, victim)
  }

  /** `ensure_banned_headroom` */
  function BannedHeadroom(cfg: GuardConfig, banned: map<Ip, real>, now: real, victim: Ip): map<Ip, real> {
    if |banned| < cfg.maxTrackedIps then banned
    else
      var kept := ActiveBans(banned, now);
      if |kept| < cfg.maxTrackedIps then kept else kept - {victim}
  }

  ghost predicate LegalBannedVictim(cfg: GuardConfig, banned: map<Ip, real>, now: real, victim: Ip) {
    var kept := ActiveBans(banned, now);
    |banned| < cfg.maxTrackedIps || |kept| < cfg.maxTrackedIps || kept == map[] || SoonestBan(kept, victim)
  }

  ghost predicate Legal(cfg: GuardConfig, g: Guard, ip: Ip, now: real, v: Victims) {
    LegalBadVictim(cfg, g.bad, ip, now, v.bad) && LegalBannedVictim(cfg, g.banned, now, v.banned)
  }

  /** The window a bad request is counted in: the tracked one, unless it is over. */
  function CurrentWindow(cfg: GuardConfig, bad: map<Ip, BadWindow>, ip: Ip, now: real): BadWindow {
    if ip in bad && Elapsed(bad[ip].start, now) <= cfg.window then bad[ip] else BadWindow(0, now)
  }

  /** The window after one more bad request, and whether that request bans. */
  function CountBad(cfg: GuardConfig, w: BadWindow, now: real): (BadWindow, bool) {
    if w.count + 1 >= cfg.threshold then (BadWindow(0, now), true)
    else (BadWindow(w.count + 1, w.start), false)
  }

  function RecordBad(cfg: GuardConfig, g: Guard, ip: Ip, now: real, v: Victims): Guard {
    if ip.IsUnspecified() then g
    else
      var bad := BadHeadroom(cfg, g.bad, ip, now, v.bad);
      var (w, ban) := CountBad(cfg, CurrentWindow(cfg, bad, ip, now), now);
      Guard(bad[ip := w],
            if ban then BannedHeadroom(cfg, g.banned, now, v.banned)[ip := now + cfg.banDuration] else g.banned)
  }

  predicate Bans(cfg: GuardConfig, g: Guard, ip: Ip, now: real, v: Victims) {
    && !ip.IsUnspecified()
    && CountBad(cfg, CurrentWindow(cfg, BadHeadroom(cfg, g.bad, ip, now, v.bad), ip, now), now).1
  }

  /** `is_banned`: the answer, and the state without an expired entry for this IP. */
  function IsBanned(g: Guard, ip: Ip, now: real): (Guard, bool) {
    if ip.IsUnspecified() || ip !in g.banned then (g, false)
    else if g.banned[ip] > now then (g, true)
    else (g.(banned := g.banned - {ip}), false)
  }

  function PruneGuard(cfg: GuardConfig, g: Guard, now: real): Guard {
    Guard(FreshWindows(g.bad, now, cfg.window * 2.0), ActiveBans(g.banned, now))
  }

  /** What every reachable state satisfies: no counter has reached the threshold, no map is over its room. */
  ghost predicate GuardInv(cfg: GuardConfig, g: Guard) {
    && (forall k :: k in g.bad ==> g.bad[k].count < cfg.Needed())
    && |g.bad| <= cfg.Room() && |g.banned| <= cfg.Room()
  }

  lemma RemoveShrinks<K, V>(m: map<K, V>, k: K)
    requires k in m
    ensures |m - {k}| == |m| - 1
  {
    assert (m - {k}).Keys == m.Keys - {k};
    assert |m - {k}| == |(m - {k}).Keys| && |m| == |m.Keys|;
  }

  lemma InsertGrows<K, V>(m: map<K, V>, k: K, v: V)
    ensures |m[k := v]| == if k in m then |m| else |m| + 1
  {
    assert m[k := v].Keys == m.Keys + {k};
    assert |m[k := v]| == |m[k := v].Keys| && |m| == |m.Keys|;
  }

  lemma SubmapSize<K, V>(a: map<K, V>, b: map<K, V>)
    requires a.Keys <= b.Keys
    ensures |a| <= |b|
  {
    SubsetSize(a.Keys, b.Keys);
    assert |a| == |a.Keys| && |b| == |b.Keys|;
  }

  lemma HeadroomSuffices(cfg: GuardConfig, g: Guard, ip: Ip, now: real, v: Victims)
    requires GuardInv(cfg, g) && Legal(cfg, g, ip, now, v)
    ensures var bad := BadHeadroom(cfg, g.bad, ip, now, v.bad);
            |bad| <= cfg.Room() && (ip !in bad ==> |bad| < cfg.Room())
    ensures |BannedHeadroom(cfg, g.banned, now, v.banned)| < cfg.Room()
  {
    var kept := FreshWindows(g.bad, now, cfg.window);
    SubmapSize(kept, g.bad);
    if kept != map[] && OldestWindow(kept, v.bad) { RemoveShrinks(kept, v.bad); }
    var active := ActiveBans(g.banned, now);
    SubmapSize(active, g.banned);
    if active != map[] && SoonestBan(active, v.banned) { RemoveShrinks(active, v.banned); }
  }

  lemma RecordBadKeepsInv(cfg: GuardConfig, g: Guard, ip: Ip, now: real, v: Victims)
    requires GuardInv(cfg, g) && Legal(cfg, g, ip, now, v)
    ensures GuardInv(cfg, RecordBad(cfg, g, ip, now, v))
  {
    if !ip.IsUnspecified() {
      HeadroomSuffices(cfg, g, ip, now, v);
      var bad := BadHeadroom(cfg, g.bad, ip, now, v.bad);
      InsertGrows(bad, ip, CountBad(cfg, CurrentWindow(cfg, bad, ip, now), now).0);
      InsertGrows(BannedHeadroom(cfg, g.banned, now, v.banned), ip, now + cfg.banDuration);
    }
  }

  /** The u32 counter of the window a bad request is counted in cannot overflow. */
  lemma CounterInRange(cfg: GuardConfig, g: Guard, ip: Ip, now: real, victim: Ip)
    requires GuardInv(cfg, g)
    ensures CurrentWindow(cfg, BadHeadroom(cfg, g.bad, ip, now, victim), ip, now).count < cfg.Needed() <= U32_MAX
  {
  }

  lemma OthersKeepInv(cfg: GuardConfig, g: Guard, ip: Ip, now: real)
    requires GuardInv(cfg, g)
    ensures GuardInv(cfg, IsBanned(g, ip, now).0) && GuardInv(cfg, PruneGuard(cfg, g, now))
  {
    SubmapSize(IsBanned(g, ip, now).0.banned, g.banned);
    SubmapSize(PruneGuard(cfg, g, now).banned, g.banned);
    SubmapSize(PruneGuard(cfg, g, now).bad, g.bad);
  }

  // ---------------------------------------------------------------- the guard as an object

  class AnomalyGuard {
    const cfg: GuardConfig
    var bad: map<Ip, BadWindow>
    var banned: map<Ip, real>

    ghost function State(): Guard
      reads this
    {
      Guard(bad, banned)
    }

    ghost predicate Valid()
      reads this
    {
      GuardInv(cfg, State())
    }

    constructor (cfg: GuardConfig)
      ensures Valid() && this.cfg == cfg && State() == Unused
    {
      this.cfg := cfg;
      bad := map[];
      banned := map[];
    }

    method CheckBanned(ip: Ip, now: real) returns (b: bool)
      requires Valid()
      modifies this`banned
      ensures Valid()
      ensures (State(), b) == IsBanned(old(State()), ip, now)
    {
      OthersKeepInv(cfg, State(), ip, now);
      if ip.IsUnspecified() {
        return false;
      }
      if ip in banned {
        if banned[ip] > now {
          return true;
        }
        banned := banned - {ip};
      }
      b := false;
    }

    method FindOldestWindow() returns (k: Ip)
      requires bad != map[]
      ensures OldestWindow(bad, k)
    {
      k :| k in bad;
      var todo := bad.Keys - {k};
      while todo != {}
        invariant todo <= bad.Keys && k in bad
        invariant forall j :: j in bad && j !in todo ==> bad[k].start <= bad[j].start
        decreases |todo|
      {
        var j :| j in todo;
        if bad[j].start < bad[k].start {
          k := j;
        }
        todo := todo - {j};
      }
    }

    method EnsureBadHeadroom(ip: Ip, now: real) returns (ghost victim: Ip)
      modifies this`bad
      ensures LegalBadVictim(cfg, old(bad), ip, now, victim)
      ensures bad == BadHeadroom(cfg, old(bad), ip, now, victim)
    {
      victim := ip;
      if ip in bad || |bad| < cfg.maxTrackedIps {
        return;
      }
      bad := FreshWindows(bad, now, cfg.window);
      if |bad| < cfg.maxTrackedIps {
        return;
      }
      if bad != map[] {
        var k := FindOldestWindow();
        victim := k;
        bad := bad - {k};
      } else {
        assert bad - {victim} == bad;
      }
    }

    method FindSoonestBan() returns (k: Ip)
      requires banned != map[]
      ensures SoonestBan(banned, k)
    {
      k :| k in banned;
      var todo := banned.Keys - {k};
      while todo != {}
        invariant todo <= banned.Keys && k in banned
        invariant forall j :: j in banned && j !in todo ==> banned[k] <= banned[j]
        decreases |todo|
      {
        var j :| j in todo;
        if banned[j] < banned[k] {
          k := j;
        }
        todo := todo - {j};
      }
    }

    method EnsureBannedHeadroom(now: real) returns (ghost victim: Ip)
      modifies this`banned
      ensures LegalBannedVictim(cfg, old(banned), now, victim)
      ensures banned == BannedHeadroom(cfg, old(banned), now, victim)
    {
      victim := V4(0);
      if |banned| < cfg.maxTrackedIps {
        return;
      }
      banned := ActiveBans(banned, now);
      if |banned| < cfg.maxTrackedIps {
        return;
      }
      if banned != map[] {
        var k := FindSoonestBan();
        victim := k;
        banned := banned - {k};
      } else {
        assert banned - {victim} == banned;
      }
    }

    /** Counts a bad request in its window; answers whether it bans. */
    method CountInWindow(ip: Ip, now: real) returns (shouldBan: bool)
      requires CurrentWindow(cfg, bad, ip, now).count < cfg.Needed()
      modifies this`bad
      ensures var (w, ban) := CountBad(cfg, CurrentWindow(cfg, old(bad), ip, now), now);
              bad == old(bad)[ip := w] && shouldBan == ban
    {
      var w := if ip in bad then bad[ip] else BadWindow(0, now);
      if Elapsed(w.start, now) > cfg.window {
        w := BadWindow(0, now);
      }
      assert w == CurrentWindow(cfg, bad, ip, now);
      var count: u32 := w.count + 1;
      shouldBan := count >= cfg.threshold;
      bad := bad[ip := if shouldBan then BadWindow(0, now) else BadWindow(count, w.start)];
    }

    method CountRequest(ip: Ip, now: real) returns (shouldBan: bool, ghost victim: Ip)
      requires Valid()
      modifies this`bad
      ensures LegalBadVictim(cfg, old(bad), ip, now, victim)
      ensures var room := BadHeadroom(cfg, old(bad), ip, now, victim);
              var (w, ban) := CountBad(cfg, CurrentWindow(cfg, room, ip, now), now);
              bad == room[ip := w] && shouldBan == ban
    {
      ghost var before := State();
      victim := EnsureBadHeadroom(ip, now);
      CounterInRange(cfg, before, ip, now, victim);
      hide BadHeadroom, LegalBadVictim, GuardInv, CurrentWindow, CountBad;
      shouldBan := CountInWindow(ip, now);
    }

    /** Records a bad request, and bans its IP when its window holds enough of them. */
    method DoRecordBad(ip: Ip, now: real) returns (ghost v: Victims)
      requires Valid()
      modifies this
      ensures Valid()
      ensures Legal(cfg, old(State()), ip, now, v)
      ensures State() == RecordBad(cfg, old(State()), ip, now, v)
    {
      hide BadHeadroom, BannedHeadroom, LegalBadVictim, LegalBannedVictim, GuardInv, CountBad, CurrentWindow;
      ghost var before := State();
      v := LegalVictims(cfg, before, ip, now);
      if ip.IsUnspecified() {
        return;
      }
      var shouldBan;
      ghost var vb;
      shouldBan, vb := CountRequest(ip, now);
      v := v.(bad := vb);
      if shouldBan {
        ghost var vn := EnsureBannedHeadroom(now);
        v := v.(banned := vn);
        banned := banned[ip := now + cfg.banDuration];
      }
      RecordBadKeepsInv(cfg, before, ip, now, v);
    }

    method DoPrune(now: real)
      requires Valid()
      modifies this
      ensures Valid()
      ensures State() == PruneGuard(cfg, old(State()), now)
    {
      OthersKeepInv(cfg, State(), V4(0), now);
      banned := ActiveBans(banned, now);
      bad := FreshWindows(bad, now, cfg.window * 2.0);
    }
  }

  lemma {:induction false} OldestWindowExists(bad: map<Ip, BadWindow>)
    requires bad != map[]
    ensures exists k :: OldestWindow(bad, k)
    decreases |bad|
  {
    var k :| k in bad;
    var rest := bad - {k};
    RemoveShrinks(bad, k);
    assert forall j :: j in bad ==> j == k || j in rest;
    if rest == map[] {
      assert OldestWindow(bad, k);
    } else {
      OldestWindowExists(rest);
      var j :| OldestWindow(rest, j);
      assert OldestWindow(bad, if bad[k].start <= bad[j].start then k else j);
    }
  }

  lemma {:induction false} SoonestBanExists(banned: map<Ip, real>)
    requires banned != map[]
    ensures exists k :: SoonestBan(banned, k)
    decreases |banned|
  {
    var k :| k in banned;
    var rest := banned - {k};
    RemoveShrinks(banned, k);
    assert forall j :: j in banned ==> j == k || j in rest;
    if rest == map[] {
      assert SoonestBan(banned, k);
    } else {
      SoonestBanExists(rest);
      var j :| SoonestBan(rest, j);
      assert SoonestBan(banned, if banned[k] <= banned[j] then k else j);
    }
  }

  /** In every state there is an entry the guard may evict. */
  ghost function LegalVictims(cfg: GuardConfig, g: Guard, ip: Ip, now: real): (v: Victims)
    ensures Legal(cfg, g, ip, now, v)
  {
    var fresh', active := FreshWindows(g.bad, now, cfg.window), ActiveBans(g.banned, now);
    var b := if fresh' == map[] then ip else (OldestWindowExists(fresh'); var k :| OldestWindow(fresh', k); k);
    var n := if active == map[] then ip else (SoonestBanExists(active); var k :| SoonestBan(active, k); k);
    Victims(b, n)
  }
}
