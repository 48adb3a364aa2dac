/** The limiter as the service keeps it: objects updated in place, against the functions of RateLimit. */
module RateLimiterObject {
  import opened Common
  import opened TokenBucket
  import opened IpWindow
  import opened RateLimit

  class Session {
    const bucket: Bucket
    var lastSeen: real

    constructor (bucket: Bucket, now: real)
      ensures this.bucket == bucket && lastSeen == now
    {
      this.bucket := bucket;
      lastSeen := now;
    }

    ghost function State(): SessionState
      reads this, bucket
    {
      SessionState(bucket.State(), lastSeen)
    }
  }

  class RateLimiter {
    const cfg: Config
    const global: Bucket
    var sessions: map<string, Session>
    var ips: map<Ip, Window>
    ghost var Repr: set<object>

    ghost predicate Owns(k: string, s: Session)
      reads this
    {
      && s in Repr && s.bucket in Repr && s.bucket.owner == Some(k)
      && s.bucket.rate == cfg.sessionPerSec && s.bucket.burst == cfg.sessionBurst
    }

    ghost predicate ValidSessions()
      reads this
    {
      forall k :: k in sessions ==> Owns(k, sessions[k])
    }

    ghost predicate ValidIps()
      reads this
    {
      forall ip :: ip in ips ==> ips[ip] in Repr && ips[ip].owner == ip
    }

    ghost predicate Valid()
      reads this
    {
      && this in Repr && global in Repr && global.owner == None
      && global.rate == cfg.globalPerSec && global.burst == cfg.globalBurst
      && ValidSessions() && ValidIps()
    }

    ghost function Sessions(): map<string, SessionState>
      reads this, Repr
      requires Valid()
    {
      map k | k in sessions :: sessions[k].State()
    }

    ghost function Windows(): map<Ip, map<string, real>>
      reads this, Repr
      requires Valid()
    {
      map ip | ip in ips :: ips[ip].sessions
    }

    ghost function State(): Limiter
      reads this, Repr
      requires Valid()
    {
      Limiter(global.State(), Sessions(), Windows())
    }

    constructor (cfg: Config, now: real)
      ensures Valid() && fresh(Repr) && this.cfg == cfg
      ensures State() == New(cfg, now)
    {
      this.cfg := cfg;
      global := new Bucket(cfg.globalPerSec, cfg.globalBurst, now, None);
      sessions := map[];
      ips := map[];
      new;
      Repr := {this, global};
    }

    /** `entry(sid).or_insert_with(..)`: a session that is not tracked yet gets a full bucket. */
    method EntrySession(now: real, sid: string)
      requires Valid()
      modifies this
      ensures Valid() && fresh(Repr - old(Repr)) && old(Repr) <= Repr && Windows() == old(Windows())
      ensures sid in sessions && sessions == old(sessions)[sid := sessions[sid]]
      ensures if sid in old(sessions) then sessions == old(sessions)
              else (fresh(sessions[sid]) && fresh(sessions[sid].bucket))
      ensures sessions[sid].bucket.State() == BucketOf(cfg, old(Sessions()), sid, now)
      ensures Sessions() == old(Sessions())[sid := Sessions()[sid]]
    {
      if sid !in sessions {
        var bucket := new Bucket(cfg.sessionPerSec, cfg.sessionBurst, now, Some(sid));
        var entry := new Session(bucket, now);
        sessions := sessions[sid := entry];
        Repr := Repr + {bucket, entry};
      }
    }

    method ChargeSession(now: real, sid: string, n: u32) returns (r: TakeResult)
      requires Valid() && sid in sessions
      modifies sessions[sid], sessions[sid].bucket
      ensures Valid() && Windows() == old(Windows())
      ensures var (b, r') := old(TryTake(sessions[sid].bucket.State(), cfg.sessionPerSec, cfg.sessionBurst, Cost(n),
                                         now));
              Sessions() == old(Sessions())[sid := SessionState(b, now)] && r == r'
    {
      var s := sessions[sid];
      s.lastSeen := now;
      r := s.bucket.Take(Cost(n), now);
    }

    lemma SameSizes()
      requires Valid()
      ensures |sessions| == |Sessions()| && |ips| == |Windows()|
    {
      assert sessions.Keys == Sessions().Keys && ips.Keys == Windows().Keys;
      assert |sessions| == |sessions.Keys| && |ips| == |ips.Keys|;
    }

    lemma TracksSession(sid: string)
      requires Valid()
      ensures sid in sessions <==> sid in Sessions()
    {
    }

    lemma TracksIp(ip: Ip)
      requires Valid()
      ensures ip in ips <==> ip in Windows()
    {
    }

    method AdmitSession(now: real, sid: string, n: u32) returns (r: TakeResult)
      requires Valid()
      modifies this, set k | k in sessions :: sessions[k], set k | k in sessions :: sessions[k].bucket
      ensures Valid() && fresh(Repr - old(Repr)) && old(Repr) <= Repr && Windows() == old(Windows())
      ensures var (b, r') := TryTake(BucketOf(cfg, old(Sessions()), sid, now), cfg.sessionPerSec, cfg.sessionBurst,
                                     Cost(n), now);
              Sessions() == old(Sessions())[sid := SessionState(b, now)] && r == r'
    {
      hide TryTake, Sessions, Windows;
      EntrySession(now, sid);
      r := ChargeSession(now, sid, n);
    }

    method CheckSession(now: real, sid: string, n: u32) returns (d: Option<Decision>)
      requires Valid()
      modifies this, set k | k in sessions :: sessions[k], set k | k in sessions :: sessions[k].bucket
      ensures Valid() && fresh(Repr - old(Repr)) && old(Repr) <= Repr
      ensures (Sessions(), d) == old(SessionLevel(cfg, Sessions(), now, sid, n))
      ensures Windows() == old(Windows())
    {
      SameSizes();
      TracksSession(sid);
      hide TryTake, Sessions, Windows;
      if sid !in sessions && |sessions| >= cfg.maxTrackedSessions {
        return Some(Deny(SessionScope, RetryAfter(1.0)));
      }
      var r := AdmitSession(now, sid, n);
      d := DenyWith(SessionScope, r);
    }

    /** `entry(ip).or_insert_with(..)`: an IP that is not tracked yet gets an empty window. */
    method EntryIp(now: real, ip: Ip)
      requires Valid()
      modifies this
      ensures Valid() && fresh(Repr - old(Repr)) && old(Repr) <= Repr && Sessions() == old(Sessions())
      ensures ip in ips && ips == old(ips)[ip := ips[ip]]
      ensures if ip in old(ips) then ips == old(ips) else fresh(ips[ip])
      ensures ips[ip].sessions == WindowOf(old(Windows()), ip)
      ensures Windows() == old(Windows())[ip := Windows()[ip]]
    {
      if ip !in ips {
        var entry := new Window(now, ip);
        ips := ips[ip := entry];
        Repr := Repr + {entry};
      }
    }

    method RecordAt(now: real, ip: Ip, sid: string) returns (r: TakeResult)
      requires Valid() && ip in ips
      modifies ips[ip]
      ensures Valid()
      ensures var (w, r') := Recorded(old(ips[ip].sessions), sid, now, cfg.ipSessionCap, cfg.ipSessionWindow);
              Windows() == old(Windows())[ip := w] && r == r'
      ensures Sessions() == old(Sessions())
    {
      hide Recorded;
      r := ips[ip].Record(sid, now, cfg.ipSessionCap, cfg.ipSessionWindow);
    }

    method AdmitIp(now: real, ip: Ip, sid: string) returns (r: TakeResult)
      requires Valid()
      modifies this, set w | w in ips :: ips[w]
      ensures Valid() && fresh(Repr - old(Repr)) && old(Repr) <= Repr && Sessions() == old(Sessions())
      ensures var (w, r') := Recorded(WindowOf(old(Windows()), ip), sid, now, cfg.ipSessionCap, cfg.ipSessionWindow);
              Windows() == old(Windows())[ip := w] && r == r'
    {
      hide Recorded, Sessions, Windows;
      EntryIp(now, ip);
      r := RecordAt(now, ip, sid);
    }

    method CheckIp(now: real, ip: Ip, sid: string) returns (d: Option<Decision>)
      requires Valid()
      modifies this, set w | w in ips :: ips[w]
      ensures Valid() && fresh(Repr - old(Repr)) && old(Repr) <= Repr
      ensures (Windows(), d) == old(IpLevel(cfg, Windows(), now, ip, sid))
      ensures Sessions() == old(Sessions())
    {
      SameSizes();
      TracksIp(ip);
      hide Recorded, Sessions, Windows;
      if ip.IsUnspecified() {
        return None;
      }
      if ip !in ips && |ips| >= cfg.maxTrackedIps {
        return Some(Deny(IpScope, RetryAfter(1.0)));
      }
      var r := AdmitIp(now, ip, sid);
      d := DenyWith(IpScope, r);
    }

    method CheckGlobal(now: real, n: u32) returns (d: Option<Decision>)
      requires Valid()
      modifies global
      ensures Valid() && Sessions() == old(Sessions()) && Windows() == old(Windows())
      ensures var (g, r) := TryTake(old(global.State()), cfg.globalPerSec, cfg.globalBurst, Cost(n), now);
              global.State() == g && d == DenyWith(GlobalScope, r)
    {
      hide TryTake;
      var r := global.Take(Cost(n), now);
      d := DenyWith(GlobalScope, r);
    }

    /** Session, then IP, then the global bucket: the first level that refuses answers. */
    method DoCheck(now: real, ip: Ip, sid: string, n: u32) returns (d: Decision)
      requires Valid()
      modifies Repr
      ensures Valid() && fresh(Repr - old(Repr))
      ensures (State(), d) == old(Check(cfg, State(), now, ip, sid, n))
    {
      hide SessionLevel, IpLevel, TryTake, Sessions, Windows;
      var d1 := CheckSession(now, sid, n);
      if d1.Some? {
        return d1.value;
      }
      var d2 := CheckIp(now, ip, sid);
      if d2.Some? {
        return d2.value;
      }
      var d3 := CheckGlobal(now, n);
      d := if d3.Some? then d3.value else Allow;
    }

    /** Drops the expired sessions of every window. */
    method RetainLive(now: real)
      requires Valid()
      modifies set w | w in ips :: ips[w]
      ensures Valid() && Sessions() == old(Sessions())
      ensures Windows() == LiveIps(cfg, old(Windows()), now)
    {
      hide Live;
      var todo := ips.Keys;
      while todo != {}
        invariant Valid() && todo <= ips.Keys
        invariant forall ip :: ip in todo ==> ips[ip].sessions == old(ips[ip].sessions)
        invariant forall ip :: ip in ips && ip !in todo ==>
                    ips[ip].sessions == Live(old(ips[ip].sessions), now, cfg.ipSessionWindow)
        decreases |todo|
      {
        var ip :| ip in todo;
        ips[ip].Retain(now, cfg.ipSessionWindow);
        todo := todo - {ip};
      }
    }

    method ForgetSessions(now: real)
      requires Valid()
      modifies this`sessions
      ensures Valid() && Windows() == old(Windows())
      ensures Sessions() == PruneSessions(cfg, old(Sessions()), now)
    {
      var ttl := cfg.SessionTtl();
      sessions := map k | k in sessions && Elapsed(sessions[k].lastSeen, now) < ttl :: sessions[k];
    }

    method DropEmpty()
      requires Valid()
      modifies this`ips
      ensures Valid() && Sessions() == old(Sessions())
      ensures Windows() == map ip | ip in old(Windows()) && old(Windows())[ip] != map[] :: old(Windows())[ip]
    {
      ips := map ip | ip in ips && ips[ip].sessions != map[] :: ips[ip];
    }

    method ForgetIps(now: real)
      requires Valid()
      modifies this`ips, set w | w in ips :: ips[w]
      ensures Valid() && Sessions() == old(Sessions())
      ensures Windows() == PruneIps(cfg, old(Windows()), now)
    {
      hide Sessions, Windows, LiveIps;
      RetainLive(now);
      DropEmpty();
    }

    /** Forgets idle sessions, and the IPs whose window has emptied. */
    method DoPrune(now: real)
      requires Valid()
      modifies Repr
      ensures Valid() && Repr == old(Repr)
      ensures State() == old(Prune(cfg, State(), now))
    {
      hide PruneSessions, PruneIps, Sessions, Windows;
      ForgetSessions(now);
      ForgetIps(now);
    }
  }
}
