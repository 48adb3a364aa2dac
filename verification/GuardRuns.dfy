/** The guard does not fail open: a fresh ban holds at once, and is only ever lost to a map full of longer ones. */
module GuardRuns {
  import opened Common
  import opened Anomaly
  import opened BanSoundness

  /** A request that bans takes effect immediately, for the whole ban duration. */
  lemma FreshBanHolds(cfg: GuardConfig, g: Guard, ip: Ip, now: real, v: Victims, t: real)
    requires Bans(cfg, g, ip, now, v) && now <= t < now + cfg.banDuration
    ensures IsBanned(RecordBad(cfg, g, ip, now, v), ip, t).1
  {
  }

  /** The ban of `ip` gives way to the ban of another IP: the map is full of active bans and this one ends first. */
  ghost predicate GivesWay(cfg: GuardConfig, g: Guard, op: Op, ip: Ip) {
    && op.Bad? && op.ip != ip && Bans(cfg, g, op.ip, op.now, op.v) && op.v.banned == ip
    && |set k | k in g.banned && g.banned[k] > op.now| >= cfg.maxTrackedIps
    && ip in g.banned && forall k :: k in g.banned && g.banned[k] > op.now ==> g.banned[ip] <= g.banned[k]
  }

  lemma ActiveKeys(banned: map<Ip, real>, now: real)
    ensures forall k :: k in ActiveBans(banned, now) <==> k in banned && banned[k] > now
    ensures |ActiveBans(banned, now)| == |set k | k in banned && banned[k] > now|
  {
    assert ActiveBans(banned, now).Keys == set k | k in banned && banned[k] > now;
    assert |ActiveBans(banned, now)| == |ActiveBans(banned, now).Keys|;
  }

  /** An active ban is lost exactly when it gives way; otherwise it keeps its end or is renewed. */
  lemma BanLostExactlyWhen(cfg: GuardConfig, g: Guard, op: Op, ip: Ip)
    requires op.Bad? ==> Legal(cfg, g, op.ip, op.now, op.v)
    requires ip in g.banned && g.banned[ip] > op.now
    ensures ip !in Next(cfg, g, op).banned <==> GivesWay(cfg, g, op, ip)
    ensures ip in Next(cfg, g, op).banned ==>
              var until := Next(cfg, g, op).banned[ip];
              until == g.banned[ip]
              || (op.Bad? && op.ip == ip && Bans(cfg, g, ip, op.now, op.v) && until == op.now + cfg.banDuration)
  {
    hide BadHeadroom, LegalBadVictim;
    assert ip in ActiveBans(g.banned, op.now);
    ActiveKeys(g.banned, op.now);
    if |g.banned| < cfg.maxTrackedIps {
      SubmapSize(ActiveBans(g.banned, op.now), g.banned);
    }
  }

  /** A prune, and a question about the address, forget a ban that has ended. */
  lemma EndedBanGoes(cfg: GuardConfig, g: Guard, op: Op, ip: Ip)
    requires ip in g.banned && g.banned[ip] <= op.now && !ip.IsUnspecified()
    requires op.Forget? || (op.Ask? && op.ip == ip)
    ensures ip !in Next(cfg, g, op).banned
  {
  }

  /**
   * The window of `ip` makes way for that of an untracked address: the map is full, and this window is over, or it is
   * evicted, an oldest one, from a map full of windows that are not.
   */
  ghost predicate MakesWay(cfg: GuardConfig, g: Guard, op: Op, ip: Ip)
    requires ip in g.bad
  {
    && op.Bad? && !op.ip.IsUnspecified() && op.ip !in g.bad && |g.bad| >= cfg.maxTrackedIps
    && (op.now - g.bad[ip].start >= cfg.window
        || (&& |set k | k in g.bad && op.now - g.bad[k].start < cfg.window| >= cfg.maxTrackedIps && op.v.bad == ip
            && forall k :: k in g.bad && op.now - g.bad[k].start < cfg.window ==> g.bad[ip].start <= g.bad[k].start))
  }

  lemma FreshKeys(bad: map<Ip, BadWindow>, now: real, age: real)
    requires age > 0.0
    ensures forall k :: k in FreshWindows(bad, now, age) <==> k in bad && now - bad[k].start < age
    ensures |FreshWindows(bad, now, age)| == |set k | k in bad && now - bad[k].start < age|
  {
    assert FreshWindows(bad, now, age).Keys == set k | k in bad && now - bad[k].start < age;
    assert |FreshWindows(bad, now, age)| == |FreshWindows(bad, now, age).Keys|;
  }

  /** A window is lost exactly when it makes way or a prune finds it two windows old; only its own IP changes it. */
  lemma WindowLostExactlyWhen(cfg: GuardConfig, g: Guard, op: Op, ip: Ip)
    requires cfg.window > 0.0 && ip in g.bad && (op.Bad? ==> Legal(cfg, g, op.ip, op.now, op.v))
    ensures ip !in Next(cfg, g, op).bad
       <==> MakesWay(cfg, g, op, ip) || (op.Forget? && op.now - g.bad[ip].start >= 2.0 * cfg.window)
    ensures ip in Next(cfg, g, op).bad && !(op.Bad? && op.ip == ip) ==> Next(cfg, g, op).bad[ip] == g.bad[ip]
  {
    hide BannedHeadroom, LegalBannedVictim;
    FreshKeys(g.bad, op.now, cfg.window);
    FreshKeys(g.bad, op.now, 2.0 * cfg.window);
    if op.Bad? && op.ip !in g.bad {
      hide CountBad, CurrentWindow;
      var kept := FreshWindows(g.bad, op.now, cfg.window);
      assert kept != map[] ==> kept.Keys != {};
    }
  }

  /**
   * A bad request counts in the window of its address unless that began longer ago than a window: it bans when it is
   * the threshold-th there, and then counting starts again, now and from nothing.
   */
  lemma CountsExactly(cfg: GuardConfig, g: Guard, ip: Ip, now: real, v: Victims)
    requires cfg.window >= 0.0 && !ip.IsUnspecified()
    ensures var counts := ip in g.bad && now - g.bad[ip].start <= cfg.window;
            var hits := if counts then g.bad[ip].count + 1 else 1;
            var (g', start) := (RecordBad(cfg, g, ip, now, v), if counts then g.bad[ip].start else now);
            && (Bans(cfg, g, ip, now, v) <==> hits >= cfg.threshold)
            && ip in g'.bad
            && g'.bad[ip] == (if hits >= cfg.threshold then BadWindow(0, now) else BadWindow(hits, start))
            && (hits >= cfg.threshold ==> ip in g'.banned && g'.banned[ip] == now + cfg.banDuration)
            && (hits < cfg.threshold ==> g'.banned == g.banned)
  {
  }

  /** Requests from an unknown address leave no trace over any run. */
  lemma {:induction false} UnknownIsIgnored(cfg: GuardConfig, ops: seq<Op>, ip: Ip)
    requires ip.IsUnspecified()
    ensures ip !in After(cfg, ops).bad && ip !in After(cfg, ops).banned
    ensures forall b :: 0 <= b < |BanEvents(cfg, ops)| ==> BanEvents(cfg, ops)[b].0 != ip
    ensures forall now, v :: RecordBad(cfg, After(cfg, ops), ip, now, v) == After(cfg, ops)
  {
    if ops != [] {
      UnknownIsIgnored(cfg, ops[..|ops| - 1], ip);
    }
  }
}
