/**
 * How many bad requests within one window are sure to ban. The counting window of an address starts with a
 * request of its own, so it may restart between them: 2 * threshold - 1 are enough, and no fewer.
 */
module GuardDetection {
  import opened Common
  import opened TokenBucket
  import opened Anomaly
  import opened BanSoundness

  ghost function Hits(ops: seq<Op>, ip: Ip): nat {
    if ops == [] then 0
    else (if ops[0].Bad? && ops[0].ip == ip then 1 else 0) + Hits(ops[1..], ip)
  }

  ghost predicate BansWithin(cfg: GuardConfig, g: Guard, ops: seq<Op>, ip: Ip)
    decreases |ops|
  {
    ops != [] &&
      ((ops[0].Bad? && ops[0].ip == ip && Bans(cfg, g, ip, ops[0].now, ops[0].v))
       || BansWithin(cfg, Next(cfg, g, ops[0]), ops[1..], ip))
  }

  /** Every operation happens in [from, to], and the clock never steps back. */
  ghost predicate Within(ops: seq<Op>, from: real, to: real)
    decreases |ops|
  {
    ops == [] || (from <= ops[0].now <= to && Within(ops[1..], ops[0].now, to))
  }

  /** The operation does not evict the window that a bad request of `ip` would be counted in. */
  ghost predicate KeepsWindow(cfg: GuardConfig, g: Guard, op: Op, ip: Ip) {
    op.Bad? && ip in g.bad && Elapsed(g.bad[ip].start, op.now) <= cfg.window ==>
      ip in BadHeadroom(cfg, g.bad, op.ip, op.now, op.v.bad)
  }

  ghost predicate Undisturbed(cfg: GuardConfig, g: Guard, ops: seq<Op>, ip: Ip)
    decreases |ops|
  {
    ops == [] || (KeepsWindow(cfg, g, ops[0], ip) && Undisturbed(cfg, Next(cfg, g, ops[0]), ops[1..], ip))
  }

  // ---------------------------------------------------------------- enough requests

  /** What one operation does to a window that counts. */
  lemma WindowStep(cfg: GuardConfig, g: Guard, op: Op, ip: Ip)
    requires KeepsWindow(cfg, g, op, ip) && cfg.window > 0.0
    ensures var g' := Next(cfg, g, op);
            if op.Bad? && op.ip == ip && !ip.IsUnspecified() then
              ip in g'.bad && g'.bad[ip] == CountBad(cfg, CurrentWindow(cfg, g.bad, ip, op.now), op.now).0
            else
              && (ip in g'.bad ==> ip in g.bad && g'.bad[ip] == g.bad[ip])
              && (ip in g.bad && 0.0 <= Elapsed(g.bad[ip].start, op.now) <= cfg.window ==> ip in g'.bad)
  {
    if op.Bad? {
      HeadroomKeeps(cfg, g.bad, op.ip, op.now, op.v.bad);
      SameWindow(cfg, g.bad, op.ip, op.now, op.v.bad, ip);
    }
    hide BadHeadroom, BannedHeadroom, CountBad, CurrentWindow;
  }

  /** A headroom that keeps the window of `ip`, if it counts, does not change where its request is counted. */
  lemma SameWindow(cfg: GuardConfig, bad: map<Ip, BadWindow>, other: Ip, now: real, victim: Ip, ip: Ip)
    requires ip in bad && Elapsed(bad[ip].start, now) <= cfg.window ==> ip in BadHeadroom(cfg, bad, other, now, victim)
    ensures CurrentWindow(cfg, BadHeadroom(cfg, bad, other, now, victim), ip, now) == CurrentWindow(cfg, bad, ip, now)
  {
    HeadroomKeeps(cfg, bad, other, now, victim);
    hide BadHeadroom;
  }

  lemma BansByCount(cfg: GuardConfig, g: Guard, op: Op, ip: Ip)
    requires op.Bad? && op.ip == ip && !ip.IsUnspecified() && KeepsWindow(cfg, g, op, ip)
    ensures Bans(cfg, g, ip, op.now, op.v) <==> CurrentWindow(cfg, g.bad, ip, op.now).count + 1 >= cfg.threshold
  {
    SameWindow(cfg, g.bad, ip, op.now, op.v.bad, ip);
    hide BadHeadroom, CurrentWindow;
  }

  /** Enough bad requests inside the current window ban. */
  lemma {:induction false} FillsWindow(cfg: GuardConfig, g: Guard, ops: seq<Op>, ip: Ip, from: real, to: real)
    requires cfg.window > 0.0 && !ip.IsUnspecified() && Undisturbed(cfg, g, ops, ip)
    requires ip in g.bad && g.bad[ip].count < cfg.Needed() && g.bad[ip].start <= from
    requires Within(ops, from, to) && to <= g.bad[ip].start + cfg.window
    requires Hits(ops, ip) + g.bad[ip].count >= cfg.Needed()
    ensures BansWithin(cfg, g, ops, ip)
    decreases |ops|
  {
    var op := ops[0];
    WindowStep(cfg, g, op, ip);
    if op.Bad? && op.ip == ip { BansByCount(cfg, g, op, ip); }
    hide KeepsWindow, Bans, Next;
    if !(op.Bad? && op.ip == ip && Bans(cfg, g, ip, op.now, op.v)) {
      FillsWindow(cfg, Next(cfg, g, op), ops[1..], ip, op.now, to);
    }
  }

  /**
   * 2 * threshold - 1 bad requests within one window ban, wherever the counting window lies: fewer than
   * `threshold` of them fall before it restarts. Those already counted make up for as many.
   */
  lemma {:induction false} BurstIsDetected(cfg: GuardConfig, g: Guard, ops: seq<Op>, ip: Ip, from: real, to: real)
    requires cfg.window > 0.0 && !ip.IsUnspecified() && Undisturbed(cfg, g, ops, ip)
    requires Within(ops, from, to) && to <= from + cfg.window
    requires ip in g.bad ==> g.bad[ip].start <= from && g.bad[ip].count < cfg.Needed()
    requires Hits(ops, ip) >= (if ip in g.bad then 2 * cfg.Needed() - 1 - g.bad[ip].count else cfg.Needed())
    ensures BansWithin(cfg, g, ops, ip)
    decreases |ops|
  {
    var op, g' := ops[0], Next(cfg, g, ops[0]);
    WindowStep(cfg, g, op, ip);
    if op.Bad? && op.ip == ip { BansByCount(cfg, g, op, ip); }
    hide KeepsWindow, Bans, Next;
    if op.Bad? && op.ip == ip && Bans(cfg, g, ip, op.now, op.v) {
    } else if op.Bad? && op.ip == ip && !(ip in g.bad && Elapsed(g.bad[ip].start, op.now) <= cfg.window) {
      FillsWindow(cfg, g', ops[1..], ip, op.now, to);
    } else {
      BurstIsDetected(cfg, g', ops[1..], ip, op.now, to);
    }
  }

  // ---------------------------------------------------------------- one request fewer

  ghost function Onward(cfg: GuardConfig, g: Guard, ops: seq<Op>): Guard
    decreases |ops|
  {
    if ops == [] then g else Onward(cfg, Next(cfg, g, ops[0]), ops[1..])
  }

  /** A legal run from `t` on in which `ip` is never banned. */
  ghost predicate Calm(cfg: GuardConfig, g: Guard, ops: seq<Op>, ip: Ip, t: real)
    decreases |ops|
  {
    ops == [] ||
      (var op := ops[0];
       && t <= op.now && (op.Bad? ==> Legal(cfg, g, op.ip, op.now, op.v))
       && !(op.Bad? && op.ip == ip && Bans(cfg, g, ip, op.now, op.v))
       && Calm(cfg, Next(cfg, g, op), ops[1..], ip, op.now))
  }

  lemma {:induction false} CalmShows(cfg: GuardConfig, g: Guard, ops: seq<Op>, ip: Ip, t: real)
    requires Calm(cfg, g, ops, ip, t)
    ensures !BansWithin(cfg, g, ops, ip)
    decreases |ops|
  {
    if ops != [] {
      hide KeepsWindow, Bans, Next, Legal;
      CalmShows(cfg, Next(cfg, g, ops[0]), ops[1..], ip, ops[0].now);
    }
  }

  lemma {:induction false} CalmSplit(cfg: GuardConfig, g: Guard, a: seq<Op>, b: seq<Op>, ip: Ip, t: real, t': real)
    requires Calm(cfg, g, a, ip, t) && Calm(cfg, Onward(cfg, g, a), b, ip, t')
    requires t <= t' && forall i :: 0 <= i < |a| ==> a[i].now <= t'
    ensures Calm(cfg, g, a + b, ip, t)
    decreases |a|
  {
    hide KeepsWindow, Bans, Next, Legal;
    if a == [] {
      assert a + b == b;
    } else {
      assert (a + b)[0] == a[0] && (a + b)[1..] == a[1..] + b;
      CalmSplit(cfg, Next(cfg, g, a[0]), a[1..], b, ip, a[0].now, t');
    }
  }

  lemma OneMore(cfg: GuardConfig, ops: seq<Op>, op: Op)
    requires LegalRun(cfg, ops) && (ops == [] || ops[|ops| - 1].now <= op.now)
    requires op.Bad? ==> Legal(cfg, After(cfg, ops), op.ip, op.now, op.v)
    ensures LegalRun(cfg, ops + [op]) && After(cfg, ops + [op]) == Next(cfg, After(cfg, ops), op)
  {
    hide Next, Legal;
    assert (ops + [op])[..|ops|] == ops;
  }

  lemma {:induction false} UndisturbedSplit(cfg: GuardConfig, g: Guard, a: seq<Op>, b: seq<Op>, ip: Ip)
    requires Undisturbed(cfg, g, a, ip) && Undisturbed(cfg, Onward(cfg, g, a), b, ip)
    ensures Undisturbed(cfg, g, a + b, ip)
    decreases |a|
  {
    hide KeepsWindow, Next;
    if a == [] {
      assert a + b == b;
    } else {
      assert (a + b)[0] == a[0] && (a + b)[1..] == a[1..] + b;
      UndisturbedSplit(cfg, Next(cfg, g, a[0]), a[1..], b, ip);
    }
  }

  lemma {:induction false} CalmIsLegal(cfg: GuardConfig, before: seq<Op>, ops: seq<Op>, ip: Ip, t: real)
    requires LegalRun(cfg, before) && (before == [] || before[|before| - 1].now <= t)
    requires Calm(cfg, After(cfg, before), ops, ip, t)
    ensures LegalRun(cfg, before + ops) && After(cfg, before + ops) == Onward(cfg, After(cfg, before), ops)
    decreases |ops|
  {
    hide KeepsWindow, Bans, Next, Legal;
    if ops == [] {
      assert before + ops == before;
    } else {
      var more := before + [ops[0]];
      OneMore(cfg, before, ops[0]);
      assert before + ops == more + ops[1..];
      CalmIsLegal(cfg, more, ops[1..], ip, ops[0].now);
    }
  }

  /** k bad requests of one address at one instant. */
  function Shots(k: nat, now: real, ip: Ip): seq<Op> {
    if k == 0 then [] else [Bad(now, ip, Victims(ip, ip))] + Shots(k - 1, now, ip)
  }

  lemma {:induction false} ShotsShape(k: nat, now: real, ip: Ip)
    ensures |Shots(k, now, ip)| == k && Hits(Shots(k, now, ip), ip) == k
    ensures forall i :: 0 <= i < k ==> Shots(k, now, ip)[i] == Bad(now, ip, Victims(ip, ip))
  {
    if k > 0 {
      ShotsShape(k - 1, now, ip);
      assert Shots(k, now, ip)[1..] == Shots(k - 1, now, ip);
    }
  }

  ghost predicate OnlyTracks(g: Guard, ip: Ip) {
    g.bad.Keys <= {ip} && g.banned.Keys <= {ip}
  }

  lemma OnlyRoom(cfg: GuardConfig, banned: map<Ip, real>, now: real, ip: Ip, until: real)
    requires banned.Keys <= {ip}
    ensures LegalBannedVictim(cfg, banned, now, ip)
    ensures BannedHeadroom(cfg, banned, now, ip)[ip := until] == map[ip := until]
  {
    var kept := ActiveBans(banned, now);
    assert kept != map[] ==> SoonestBan(kept, ip);
    assert BannedHeadroom(cfg, banned, now, ip).Keys <= {ip};
  }

  lemma OnlyWindow(cfg: GuardConfig, bad: map<Ip, BadWindow>, now: real, ip: Ip, w: BadWindow)
    requires bad.Keys <= {ip}
    ensures LegalBadVictim(cfg, bad, ip, now, ip) && BadHeadroom(cfg, bad, ip, now, ip) == bad
            && bad[ip := w] == map[ip := w]
  {
    if ip !in bad {
      assert bad == map[];
    }
  }

  lemma OneShot(cfg: GuardConfig, g: Guard, now: real, ip: Ip)
    requires OnlyTracks(g, ip) && !ip.IsUnspecified()
    ensures var op := Bad(now, ip, Victims(ip, ip));
            var w := CurrentWindow(cfg, g.bad, ip, now);
            && Legal(cfg, g, ip, now, op.v) && KeepsWindow(cfg, g, op, ip)
            && (Bans(cfg, g, ip, now, op.v) <==> w.count + 1 >= cfg.threshold)
            && Next(cfg, g, op)
               == if w.count + 1 >= cfg.threshold
                 then Guard(map[ip := BadWindow(0, now)], map[ip := now + cfg.banDuration])
                  else Guard(map[ip := BadWindow(w.count + 1, w.start)], g.banned)
  {
    OnlyWindow(cfg, g.bad, now, ip, CountBad(cfg, CurrentWindow(cfg, g.bad, ip, now), now).0);
    OnlyRoom(cfg, g.banned, now, ip, now + cfg.banDuration);
    hide BadHeadroom, BannedHeadroom, LegalBadVictim, LegalBannedVictim, CurrentWindow;
  }

  /** Fewer requests than the window lacks never ban. */
  lemma {:induction false} QuietShots(cfg: GuardConfig, g: Guard, k: nat, now: real, ip: Ip)
    requires OnlyTracks(g, ip) && !ip.IsUnspecified()
    requires cfg.window >= 0.0 && CurrentWindow(cfg, g.bad, ip, now).count + k < cfg.Needed()
    ensures Calm(cfg, g, Shots(k, now, ip), ip, now) && Undisturbed(cfg, g, Shots(k, now, ip), ip)
    ensures Onward(cfg, g, Shots(k, now, ip)) == Fed(cfg, g, k, now, ip)
    decreases k
  {
    if k > 0 {
      OneShot(cfg, g, now, ip);
      var op := Bad(now, ip, Victims(ip, ip));
      var next := Next(cfg, g, op);
      assert Shots(k, now, ip)[1..] == Shots(k - 1, now, ip);
      FedStep(cfg, g, k, now, ip);
      hide Next, Bans, Legal, KeepsWindow, CurrentWindow;
      QuietShots(cfg, next, k - 1, now, ip);
    }
  }

  /** The guard after k requests that count and do not ban. */
  function Fed(cfg: GuardConfig, g: Guard, k: nat, now: real, ip: Ip): Guard {
    var w := CurrentWindow(cfg, g.bad, ip, now);
    if k == 0 then g else Guard(map[ip := BadWindow(w.count + k, w.start)], g.banned)
  }

  lemma FedStep(cfg: GuardConfig, g: Guard, k: nat, now: real, ip: Ip)
    requires k > 0 && cfg.window >= 0.0
    ensures var next := Fed(cfg, g, 1, now, ip);
            && CurrentWindow(cfg, next.bad, ip, now) == next.bad[ip]
            && Fed(cfg, next, k - 1, now, ip) == Fed(cfg, g, k, now, ip)
  {
  }

  /** The state a ban at instant 0 leaves: a window that has counted nothing yet. */
  function Punished(cfg: GuardConfig, ip: Ip): Guard {
    Guard(map[ip := BadWindow(0, 0.0)], map[ip := cfg.banDuration])
  }

  lemma AfterBan(cfg: GuardConfig, ip: Ip)
    requires cfg.NonNegative() && !ip.IsUnspecified()
    ensures var before := Shots(cfg.Needed() - 1, 0.0, ip) + [Bad(0.0, ip, Victims(ip, ip))];
            LegalRun(cfg, before) && After(cfg, before) == Punished(cfg, ip)
  {
    var k, last := cfg.Needed() - 1, Bad(0.0, ip, Victims(ip, ip));
    var early, g := Shots(k, 0.0, ip), Fed(cfg, Unused, k, 0.0, ip);
    assert CurrentWindow(cfg, g.bad, ip, 0.0).count == k && OnlyTracks(g, ip);
    OneShot(cfg, g, 0.0, ip);
    assert Next(cfg, g, last) == Punished(cfg, ip);
    ShotsShape(k, 0.0, ip);
    assert [] + early == early && CurrentWindow(cfg, Unused.bad, ip, 0.0).count == 0;
    hide Next, Legal, Shots, Calm, Onward, Fed, CurrentWindow, Punished, KeepsWindow, Bans;
    QuietShots(cfg, Unused, k, 0.0, ip);
    CalmIsLegal(cfg, [], early, ip, 0.0);
    OneMore(cfg, early, last);
  }

  lemma {:induction false} HitsSplit(a: seq<Op>, b: seq<Op>, ip: Ip)
    ensures Hits(a + b, ip) == Hits(a, ip) + Hits(b, ip)
    decreases |a|
  {
    if a == [] {
      assert a + b == b;
    } else {
      assert (a + b)[0] == a[0] && (a + b)[1..] == a[1..] + b;
      HitsSplit(a[1..], b, ip);
    }
  }

  lemma {:induction false} CalmWithin(cfg: GuardConfig, g: Guard, ops: seq<Op>, ip: Ip, t: real, to: real)
    requires Calm(cfg, g, ops, ip, t) && forall i :: 0 <= i < |ops| ==> ops[i].now <= to
    ensures Within(ops, t, to)
    decreases |ops|
  {
    if ops != [] {
      hide KeepsWindow, Bans, Next, Legal;
      CalmWithin(cfg, Next(cfg, g, ops[0]), ops[1..], ip, ops[0].now, to);
    }
  }

  /** After a ban, threshold - 1 requests at the very end of its window and as many after it. */
  function Evasion(cfg: GuardConfig, ip: Ip): seq<Op> {
    Shots(cfg.Needed() - 1, cfg.window, ip) + Shots(cfg.Needed() - 1, cfg.window * 1.5, ip)
  }

  /** The first half fills the window that the ban left, and the second starts another. */
  lemma Restarts(cfg: GuardConfig, ip: Ip)
    requires cfg.window > 0.0
    ensures var (g, k) := (Punished(cfg, ip), cfg.Needed() - 1);
            && CurrentWindow(cfg, g.bad, ip, cfg.window).count == 0
            && CurrentWindow(cfg, Fed(cfg, g, k, cfg.window, ip).bad, ip, cfg.window * 1.5).count == 0
  {
  }

  lemma EvasionShape(cfg: GuardConfig, ip: Ip)
    ensures Hits(Evasion(cfg, ip), ip) == 2 * cfg.Needed() - 2
    ensures cfg.window >= 0.0 ==> forall i :: 0 <= i < |Evasion(cfg, ip)| ==>
              Evasion(cfg, ip)[i].now <= cfg.window * 2.0
  {
    var k := cfg.Needed() - 1;
    ShotsShape(k, cfg.window, ip);
    ShotsShape(k, cfg.window * 1.5, ip);
    hide Shots, GuardConfig.Needed;
    HitsSplit(Shots(k, cfg.window, ip), Shots(k, cfg.window * 1.5, ip), ip);
  }

  /** 2 * threshold - 2 requests within one window that never ban. */
  lemma EvasionIsCalm(cfg: GuardConfig, ip: Ip)
    requires cfg.NonNegative() && cfg.window > 0.0 && !ip.IsUnspecified()
    ensures Calm(cfg, Punished(cfg, ip), Evasion(cfg, ip), ip, cfg.window)
    ensures Undisturbed(cfg, Punished(cfg, ip), Evasion(cfg, ip), ip)
  {
    hide Calm, Undisturbed, Shots;
    var g, k := Punished(cfg, ip), cfg.Needed() - 1;
    Restarts(cfg, ip);
    var mid := Fed(cfg, g, k, cfg.window, ip);
    assert OnlyTracks(g, ip) && OnlyTracks(mid, ip);
    hide CurrentWindow, Punished, Fed, OnlyTracks, GuardConfig.Needed;
    TwoBursts(cfg, g, mid, k, cfg.window, cfg.window * 1.5, ip);
  }

  lemma TwoBursts(cfg: GuardConfig, g: Guard, mid: Guard, k: nat, early: real, late: real, ip: Ip)
    requires cfg.window >= 0.0 && !ip.IsUnspecified() && early <= late
    requires OnlyTracks(g, ip) && CurrentWindow(cfg, g.bad, ip, early).count + k < cfg.Needed()
    requires mid == Fed(cfg, g, k, early, ip)
    requires OnlyTracks(mid, ip) && CurrentWindow(cfg, mid.bad, ip, late).count + k < cfg.Needed()
    ensures Calm(cfg, g, Shots(k, early, ip) + Shots(k, late, ip), ip, early)
    ensures Undisturbed(cfg, g, Shots(k, early, ip) + Shots(k, late, ip), ip)
  {
    hide *;
    QuietShots(cfg, g, k, early, ip);
    QuietShots(cfg, mid, k, late, ip);
    ShotsShape(k, early, ip);
    CalmSplit(cfg, g, Shots(k, early, ip), Shots(k, late, ip), ip, early, late);
    UndisturbedSplit(cfg, g, Shots(k, early, ip), Shots(k, late, ip), ip);
  }

  // ---------------------------------------------------------------- the exact number

  /** In all runs, n bad requests within one window ban, unless the window they are counted in is evicted. */
  ghost predicate Detects(cfg: GuardConfig, n: nat) {
    forall before: seq<Op>, ops: seq<Op>, ip: Ip, from: real, to: real ::
      && LegalRun(cfg, before + ops) && LegalRun(cfg, before) && (before == [] || Now(before) <= from)
      && !ip.IsUnspecified() && Undisturbed(cfg, After(cfg, before), ops, ip)
      && Within(ops, from, to) && to <= from + cfg.window && Hits(ops, ip) >= n
      ==> BansWithin(cfg, After(cfg, before), ops, ip)
  }

  lemma ReachableWindow(cfg: GuardConfig, before: seq<Op>, ip: Ip, from: real)
    requires cfg.NonNegative() && LegalRun(cfg, before) && (before == [] || Now(before) <= from)
    ensures ip in After(cfg, before).bad ==>
              After(cfg, before).bad[ip].start <= from && After(cfg, before).bad[ip].count < cfg.Needed()
  {
    RunKeepsInv(cfg, before);
    BooksOk(cfg, before);
    hide LegalRun;
  }

  /** 2 * threshold - 1 requests within one window are always detected, and no smaller number is. */
  lemma DetectsExactly(cfg: GuardConfig, n: nat)
    requires cfg.NonNegative() && cfg.window > 0.0
    ensures Detects(cfg, n) <==> n >= 2 * cfg.Needed() - 1
  {
    if n >= 2 * cfg.Needed() - 1 {
      forall before: seq<Op>, ops: seq<Op>, ip: Ip, from: real, to: real
        | && LegalRun(cfg, before + ops) && LegalRun(cfg, before) && (before == [] || Now(before) <= from)
          && !ip.IsUnspecified() && Undisturbed(cfg, After(cfg, before), ops, ip)
          && Within(ops, from, to) && to <= from + cfg.window && Hits(ops, ip) >= n
        ensures BansWithin(cfg, After(cfg, before), ops, ip)
      {
        ReachableWindow(cfg, before, ip, from);
        hide After, LegalRun;
        BurstIsDetected(cfg, After(cfg, before), ops, ip, from, to);
      }
    } else {
      Evaded(cfg);
    }
  }

  lemma Evaded(cfg: GuardConfig)
    requires cfg.NonNegative() && cfg.window > 0.0
    ensures forall n: nat :: n <= 2 * cfg.Needed() - 2 ==> !Detects(cfg, n)
  {
    var ip := V4(7);
    var before := Shots(cfg.Needed() - 1, 0.0, ip) + [Bad(0.0, ip, Victims(ip, ip))];
    AfterBan(cfg, ip);
    EvasionIsCalm(cfg, ip);
    EvasionShape(cfg, ip);
    CalmWithin(cfg, Punished(cfg, ip), Evasion(cfg, ip), ip, cfg.window, cfg.window * 2.0);
    hide LegalRun, After, Calm, Shots, Punished;
    CalmIsLegal(cfg, before, Evasion(cfg, ip), ip, cfg.window);
    CalmShows(cfg, After(cfg, before), Evasion(cfg, ip), ip, cfg.window);
  }

  /** In particular `threshold` requests are sure to ban only if a single one does. */
  lemma ThresholdAloneSuffices(cfg: GuardConfig)
    requires cfg.NonNegative() && cfg.window > 0.0
    ensures Detects(cfg, cfg.Needed()) <==> cfg.Needed() == 1
  {
    DetectsExactly(cfg, cfg.Needed());
  }

  // ---------------------------------------------------------------- evictions

  /** In all runs whatsoever, n bad requests within one window ban. */
  ghost predicate SureToBan(cfg: GuardConfig, n: nat) {
    forall before: seq<Op>, ops: seq<Op>, ip: Ip, from: real, to: real ::
      && LegalRun(cfg, before + ops) && LegalRun(cfg, before) && (before == [] || Now(before) <= from)
      && !ip.IsUnspecified() && Within(ops, from, to) && to <= from + cfg.window && Hits(ops, ip) >= n
      ==> BansWithin(cfg, After(cfg, before), ops, ip)
  }

  /** Addresses that only fill the map. */
  function Fillers(m: nat): set<Ip> {
    if m == 0 then {} else Fillers(m - 1) + {V4(m + 2)}
  }

  lemma {:induction false} FillersShape(m: nat)
    ensures |Fillers(m)| == m && forall a :: a in Fillers(m) ==> a.V4? && 3 <= a.bits <= m + 2
  {
    if m > 0 {
      FillersShape(m - 1);
    }
  }

  /** Every address has counted one request at instant 0, and none is banned. */
  function Ones(ips: set<Ip>): Guard {
    Guard(map a | a in ips :: BadWindow(1, 0.0), map[])
  }

  function Hit(ip: Ip, victim: Ip): Op {
    Bad(0.0, ip, Victims(victim, victim))
  }

  lemma CrowdSize(ips: set<Ip>)
    ensures |Ones(ips).bad| == |ips|
  {
    assert Ones(ips).bad.Keys == ips;
    assert |Ones(ips).bad| == |Ones(ips).bad.Keys|;
  }

  /** A request of an untracked address in a full map takes the place of the victim. */
  lemma TakesPlace(cfg: GuardConfig, ips: set<Ip>, ip: Ip, victim: Ip, after: set<Ip>)
    requires cfg.window > 0.0 && cfg.Needed() >= 2 && !ip.IsUnspecified()
    requires ip !in ips && victim in ips && |ips| >= cfg.maxTrackedIps && after == ips - {victim} + {ip}
    ensures Legal(cfg, Ones(ips), ip, 0.0, Victims(victim, victim))
    ensures !Bans(cfg, Ones(ips), ip, 0.0, Victims(victim, victim))
    ensures Next(cfg, Ones(ips), Hit(ip, victim)) == Ones(after)
  {
    var bad := Ones(ips).bad;
    CrowdSize(ips);
    assert FreshWindows(bad, 0.0, cfg.window) == bad;
    assert OldestWindow(bad, victim);
    var room := BadHeadroom(cfg, bad, ip, 0.0, victim);
    assert room == bad - {victim};
    assert room[ip := BadWindow(1, 0.0)] == Ones(after).bad;
    assert ActiveBans(map[], 0.0) == map[];
    hide BadHeadroom, FreshWindows;
  }

  /** A request of an untracked address in a map with room for it just takes its place. */
  lemma JoinsIn(cfg: GuardConfig, ips: set<Ip>, ip: Ip, after: set<Ip>)
    requires cfg.window > 0.0 && cfg.Needed() >= 2 && !ip.IsUnspecified()
    requires ip !in ips && (|ips| < cfg.maxTrackedIps || ips == {}) && after == ips + {ip}
    ensures Legal(cfg, Ones(ips), ip, 0.0, Victims(ip, ip))
    ensures !Bans(cfg, Ones(ips), ip, 0.0, Victims(ip, ip))
    ensures Next(cfg, Ones(ips), Hit(ip, ip)) == Ones(after)
  {
    var bad := Ones(ips).bad;
    CrowdSize(ips);
    RoomToJoin(cfg, ips, ip);
    assert bad[ip := BadWindow(1, 0.0)] == Ones(after).bad;
    assert ActiveBans(map[], 0.0) == map[];
    assert CurrentWindow(cfg, bad, ip, 0.0) == BadWindow(0, 0.0);
    hide BadHeadroom, LegalBadVictim, CurrentWindow;
  }

  lemma RoomToJoin(cfg: GuardConfig, ips: set<Ip>, ip: Ip)
    requires ip !in ips && (|ips| < cfg.maxTrackedIps || ips == {})
    ensures BadHeadroom(cfg, Ones(ips).bad, ip, 0.0, ip) == Ones(ips).bad
    ensures LegalBadVictim(cfg, Ones(ips).bad, ip, 0.0, ip)
  {
    CrowdSize(ips);
    if ips == {} {
      assert Ones(ips).bad == map[] && FreshWindows(map[], 0.0, cfg.window) == map[];
    }
  }

  const ABUSER := V4(1)
  const PARTNER := V4(2)

  /** The map fills up with the others, the partner last. */
  function FillUp(m: nat): seq<Op> {
    if m == 0 then [] else FillUp(m - 1) + [Hit(V4(m + 2), V4(m + 2))]
  }

  lemma {:induction false} FilledUp(cfg: GuardConfig, m: nat)
    requires cfg.window > 0.0 && cfg.Needed() >= 2 && m < cfg.Room()
    ensures LegalRun(cfg, FillUp(m)) && After(cfg, FillUp(m)) == Ones(Fillers(m))
    ensures FillUp(m) == [] || FillUp(m)[|FillUp(m)| - 1].now == 0.0
  {
    hide Legal;
    if m == 0 {
      assert Ones({}).bad == map[];
    } else {
      FilledUp(cfg, m - 1);
      FillersShape(m - 1);
      assert Fillers(m) == Fillers(m - 1) + {V4(m + 2)} && |Fillers(m - 1)| < cfg.maxTrackedIps;
      assert FillUp(m) == FillUp(m - 1) + [Hit(V4(m + 2), V4(m + 2))];
      assert V4(m + 2) !in Fillers(m - 1);
      hide *;
      OneFiller(cfg, FillUp(m - 1), Fillers(m - 1), V4(m + 2), Fillers(m));
    }
  }

  lemma OneFiller(cfg: GuardConfig, ops: seq<Op>, ips: set<Ip>, ip: Ip, after: set<Ip>)
    requires cfg.window > 0.0 && cfg.Needed() >= 2 && !ip.IsUnspecified()
    requires ip !in ips && (|ips| < cfg.maxTrackedIps || ips == {}) && after == ips + {ip}
    requires LegalRun(cfg, ops) && After(cfg, ops) == Ones(ips) && (ops == [] || ops[|ops| - 1].now == 0.0)
    ensures LegalRun(cfg, ops + [Hit(ip, ip)]) && After(cfg, ops + [Hit(ip, ip)]) == Ones(after)
  {
    hide Next, Legal, Bans, Ones, LegalRun, After, GuardConfig.Needed;
    JoinsIn(cfg, ips, ip, after);
    OneMore(cfg, ops, Hit(ip, ip));
  }

  /** The two take turns, each in the place of the other. */
  function Turns(n: nat): seq<Op> {
    if n == 0 then [] else [Hit(ABUSER, PARTNER)] + ([Hit(PARTNER, ABUSER)] + Turns(n - 1))
  }

  lemma CalmCons(cfg: GuardConfig, g: Guard, op: Op, rest: seq<Op>, ip: Ip)
    requires op.Bad? && Legal(cfg, g, op.ip, op.now, op.v) && !Bans(cfg, g, op.ip, op.now, op.v)
    requires Calm(cfg, Next(cfg, g, op), rest, ip, op.now)
    ensures Calm(cfg, g, [op] + rest, ip, op.now)
  {
    hide Next, Legal, Bans;
    assert ([op] + rest)[0] == op && ([op] + rest)[1..] == rest;
  }

  /** A full map with the partner in it, and the same with the abuser in its place. */
  ghost predicate Swapped(cfg: GuardConfig, p: set<Ip>, a: set<Ip>) {
    && |p| >= cfg.maxTrackedIps && |a| >= cfg.maxTrackedIps
    && PARTNER in p && ABUSER !in p && a == p - {PARTNER} + {ABUSER}
    && ABUSER in a && PARTNER !in a && p == a - {ABUSER} + {PARTNER}
  }

  lemma OneTurn(cfg: GuardConfig, p: set<Ip>, a: set<Ip>, rest: seq<Op>)
    requires cfg.window > 0.0 && cfg.Needed() >= 2 && Swapped(cfg, p, a)
    requires Calm(cfg, Ones(p), rest, ABUSER, 0.0)
    ensures Calm(cfg, Ones(p), [Hit(ABUSER, PARTNER)] + ([Hit(PARTNER, ABUSER)] + rest), ABUSER, 0.0)
  {
    TakesPlace(cfg, p, ABUSER, PARTNER, a);
    TakesPlace(cfg, a, PARTNER, ABUSER, p);
    hide Next, Legal, Bans, Ones, Calm, GuardConfig.Needed, Swapped;
    CalmCons(cfg, Ones(a), Hit(PARTNER, ABUSER), rest, ABUSER);
    CalmCons(cfg, Ones(p), Hit(ABUSER, PARTNER), [Hit(PARTNER, ABUSER)] + rest, ABUSER);
  }

  lemma {:induction false} TurnsAreCalm(cfg: GuardConfig, p: set<Ip>, a: set<Ip>, n: nat)
    requires cfg.window > 0.0 && cfg.Needed() >= 2 && Swapped(cfg, p, a)
    ensures Calm(cfg, Ones(p), Turns(n), ABUSER, 0.0)
    decreases n
  {
    hide Swapped, Ones, GuardConfig.Needed;
    if n > 0 {
      assert Turns(n) == [Hit(ABUSER, PARTNER)] + ([Hit(PARTNER, ABUSER)] + Turns(n - 1));
      hide *;
      TurnsAreCalm(cfg, p, a, n - 1);
      OneTurn(cfg, p, a, Turns(n - 1));
    }
  }

  lemma {:induction false} TurnsShape(n: nat)
    ensures Hits(Turns(n), ABUSER) == n && Within(Turns(n), 0.0, 0.0)
  {
    if n > 0 {
      TurnsShape(n - 1);
      var tail := [Hit(PARTNER, ABUSER)] + Turns(n - 1);
      assert tail[1..] == Turns(n - 1) && Turns(n)[1..] == tail;
      assert Hits(tail, ABUSER) == n - 1 && Within(tail, 0.0, 0.0);
    }
  }

  /** Two addresses that evict each other are never banned, however many requests they make. */
  lemma EvictionsEvade(cfg: GuardConfig, n: nat)
    requires cfg.window > 0.0 && cfg.Needed() >= 2
    ensures !SureToBan(cfg, n)
  {
    var m := cfg.Room() - 1;
    FilledUp(cfg, m);
    FillersShape(m);
    var others := Fillers(m);
    var p, a := others + {PARTNER}, others + {ABUSER};
    assert |p| == m + 1 && |a| == m + 1 && Swapped(cfg, p, a);
    hide Fillers, FillUp, Turns, Calm, Ones, LegalRun, After, GuardConfig.Needed, Swapped;
    OneFiller(cfg, FillUp(m), others, PARTNER, p);
    Escapes(cfg, FillUp(m) + [Hit(PARTNER, PARTNER)], p, a, n);
  }

  lemma Escapes(cfg: GuardConfig, before: seq<Op>, p: set<Ip>, a: set<Ip>, n: nat)
    requires cfg.window > 0.0 && cfg.Needed() >= 2 && Swapped(cfg, p, a)
    requires LegalRun(cfg, before) && After(cfg, before) == Ones(p)
    requires before != [] && before[|before| - 1].now == 0.0
    ensures !SureToBan(cfg, n)
  {
    TurnsShape(n);
    hide LegalRun, After, Calm, Turns, Ones, Hits, Within, GuardConfig.Needed, Swapped;
    TurnsAreCalm(cfg, p, a, n);
    CalmIsLegal(cfg, before, Turns(n), ABUSER, 0.0);
    CalmShows(cfg, After(cfg, before), Turns(n), ABUSER, 0.0);
  }

  lemma {:induction false} FirstHitBans(cfg: GuardConfig, g: Guard, ops: seq<Op>, ip: Ip)
    requires cfg.Needed() == 1 && !ip.IsUnspecified() && Hits(ops, ip) >= 1
    ensures BansWithin(cfg, g, ops, ip)
    decreases |ops|
  {
    hide BadHeadroom, CurrentWindow;
    if !(ops[0].Bad? && ops[0].ip == ip) {
      FirstHitBans(cfg, Next(cfg, g, ops[0]), ops[1..], ip);
    }
  }

  /** Evictions included, no number of requests is sure to ban unless a single one is, whatever the capacity. */
  lemma SureToBanExactly(cfg: GuardConfig, n: nat)
    requires cfg.window > 0.0 && n >= 1
    ensures SureToBan(cfg, n) <==> cfg.Needed() == 1
  {
    if cfg.Needed() == 1 {
      forall before: seq<Op>, ops: seq<Op>, ip: Ip, from: real, to: real
        | && LegalRun(cfg, before + ops) && LegalRun(cfg, before) && (before == [] || Now(before) <= from)
          && !ip.IsUnspecified() && Within(ops, from, to) && to <= from + cfg.window && Hits(ops, ip) >= n
        ensures BansWithin(cfg, After(cfg, before), ops, ip)
      {
        FirstHitBans(cfg, After(cfg, before), ops, ip);
      }
    } else {
      EvictionsEvade(cfg, n);
    }
  }
}
