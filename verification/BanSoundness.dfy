/**
 * Every ban is earned, over all runs with evictions and prunes: a ban at time t is paid for by at least
 * `threshold` bad requests of the banned IP in [t - window, t], and no bad request pays for two bans.
 */
module BanSoundness {
  import opened Common
  import opened TokenBucket
  import opened Anomaly

  datatype Op = Bad(now: real, ip: Ip, v: Victims) | Ask(now: real, ip: Ip) | Forget(now: real)

  ghost function Next(cfg: GuardConfig, g: Guard, op: Op): Guard {
    match op
    case Bad(now, ip, v) => RecordBad(cfg, g, ip, now, v)
    case Ask(now, ip) => IsBanned(g, ip, now).0
    case Forget(now) => PruneGuard(cfg, g, now)
  }

  ghost function After(cfg: GuardConfig, ops: seq<Op>): Guard {
    if ops == [] then Unused else Next(cfg, After(cfg, ops[..|ops| - 1]), ops[|ops| - 1])
  }

  /** Every eviction of the run picks an entry that is minimal, and the clock never steps back. */
  ghost predicate LegalRun(cfg: GuardConfig, ops: seq<Op>) {
    ops == [] ||
      (var before, op := ops[..|ops| - 1], ops[|ops| - 1];
       && LegalRun(cfg, before)
       && (op.Bad? ==> Legal(cfg, After(cfg, before), op.ip, op.now, op.v))
       && (before == [] || before[|before| - 1].now <= op.now))
  }

  lemma {:induction false} RunKeepsInv(cfg: GuardConfig, ops: seq<Op>)
    requires LegalRun(cfg, ops)
    ensures GuardInv(cfg, After(cfg, ops))
  {
    if ops != [] {
      var before, op := ops[..|ops| - 1], ops[|ops| - 1];
      RunKeepsInv(cfg, before);
      match op {
        case Bad(now, ip, v) => RecordBadKeepsInv(cfg, After(cfg, before), ip, now, v);
        case Ask(now, ip) => OthersKeepInv(cfg, After(cfg, before), ip, now);
        case Forget(now) => OthersKeepInv(cfg, After(cfg, before), V4(0), now);
      }
    }
  }

  lemma {:induction false} TimesAscend(cfg: GuardConfig, ops: seq<Op>, i: nat)
    requires LegalRun(cfg, ops) && i < |ops|
    ensures ops[i].now <= ops[|ops| - 1].now
  {
    if i < |ops| - 1 {
      TimesAscend(cfg, ops[..|ops| - 1], i);
    }
  }

  /** The bans of a run, in order: which IP and when. */
  ghost function BanEvents(cfg: GuardConfig, ops: seq<Op>): seq<(Ip, real)> {
    if ops == [] then []
    else
      var before, op := ops[..|ops| - 1], ops[|ops| - 1];
      BanEvents(cfg, before)
      + (if op.Bad? && Bans(cfg, After(cfg, before), op.ip, op.now, op.v) then [(op.ip, op.now)] else [])
  }

  // ---------------------------------------------------------------- bookkeeping beside the guard

  /**
   * For every tracked IP the positions of the bad requests in its window, and for every ban the positions
   * of the bad requests that paid for it.
   */
  datatype Ledger = Ledger(pending: map<Ip, set<nat>>, credits: seq<set<nat>>)

  ghost function Keep(pending: map<Ip, set<nat>>, ips: set<Ip>): map<Ip, set<nat>> {
    map k | k in pending && k in ips :: pending[k]
  }

  /** The positions counted with a bad request at position i: those of the window it falls in, and itself. */
  ghost function Counted(cfg: GuardConfig, bad: map<Ip, BadWindow>, pending: map<Ip, set<nat>>, now: real, ip: Ip,
                         i: nat)
    : set<nat>
  {
    (if ip in bad && ip in pending && Elapsed(bad[ip].start, now) <= cfg.window then pending[ip] else {}) + {i}
  }

  ghost function Post(cfg: GuardConfig, g: Guard, l: Ledger, op: Op, i: nat): Ledger {
    match op
    case Bad(now, ip, v) =>
      if ip.IsUnspecified() then l
      else
        var bad := BadHeadroom(cfg, g.bad, ip, now, v.bad);
        var kept := Keep(l.pending, bad.Keys);
        var counted := Counted(cfg, bad, kept, now, ip, i);
        if Bans(cfg, g, ip, now, v) then Ledger(kept[ip := {}], l.credits + [counted])
        else l.(pending := kept[ip := counted])
    case Ask(_, _) => l
    case Forget(now) => l.(pending := Keep(l.pending, PruneGuard(cfg, g, now).bad.Keys))
  }

  ghost function Books(cfg: GuardConfig, ops: seq<Op>): Ledger {
    if ops == [] then Ledger(map[], [])
    else
      var before := ops[..|ops| - 1];
      Post(cfg, After(cfg, before), Books(cfg, before), ops[|ops| - 1], |before|)
  }

  /** The positions are bad requests of `ip` between `from` and `to`. */
  ghost predicate BadRequests(ops: seq<Op>, positions: set<nat>, ip: Ip, from: real, to: real) {
    forall i :: i in positions ==> i < |ops| && ops[i].Bad? && ops[i].ip == ip && from <= ops[i].now <= to
  }

  ghost predicate PendingOk(ops: seq<Op>, pending: map<Ip, set<nat>>, bad: map<Ip, BadWindow>, now: real) {
    && pending.Keys == bad.Keys
    && forall k :: k in bad ==>
         && |pending[k]| == bad[k].count && bad[k].start <= now
         && BadRequests(ops, pending[k], k, bad[k].start, now)
  }

  ghost predicate CreditsOk(cfg: GuardConfig, ops: seq<Op>, bans: seq<(Ip, real)>, credits: seq<set<nat>>) {
    && |credits| == |bans|
    && forall b :: 0 <= b < |bans| ==>
         && |credits[b]| >= cfg.Needed()
         && BadRequests(ops, credits[b], bans[b].0, bans[b].1 - cfg.window, bans[b].1)
  }

  /** No position is used twice. */
  ghost predicate NothingTwice(l: Ledger) {
    && (forall a, b :: 0 <= a < b < |l.credits| ==> l.credits[a] !! l.credits[b])
    && forall k, b :: k in l.pending && 0 <= b < |l.credits| ==> l.pending[k] !! l.credits[b]
  }

  ghost function Now(ops: seq<Op>): real {
    if ops == [] then 0.0 else ops[|ops| - 1].now
  }

  /** The positions counted with a bad request are those of its window and its own. */
  lemma CountedOk(cfg: GuardConfig, ops: seq<Op>, pending: map<Ip, set<nat>>, bad: map<Ip, BadWindow>,
                  t: real, now: real, ip: Ip, v: Victims)
    requires t <= now && cfg.NonNegative() && PendingOk(ops, pending, bad, t)
    ensures var counted := Counted(cfg, bad, pending, now, ip, |ops|);
            && BadRequests(ops + [Bad(now, ip, v)], counted, ip, CurrentWindow(cfg, bad, ip, now).start, now)
            && |counted| == CurrentWindow(cfg, bad, ip, now).count + 1
            && CurrentWindow(cfg, bad, ip, now).start >= now - cfg.window
  {
    if ip in bad && Elapsed(bad[ip].start, now) <= cfg.window {
      assert |ops| !in pending[ip];
    }
  }

  lemma KeepOk(ops: seq<Op>, pending: map<Ip, set<nat>>, bad: map<Ip, BadWindow>, fewer: map<Ip, BadWindow>,
               t: real, now: real, op: Op)
    requires t <= now && PendingOk(ops, pending, bad, t)
    requires fewer.Keys <= bad.Keys && forall k :: k in fewer ==> fewer[k] == bad[k]
    ensures PendingOk(ops, Keep(pending, fewer.Keys), fewer, t)
    ensures PendingOk(ops + [op], Keep(pending, fewer.Keys), fewer, now)
  {
  }

  lemma HeadroomKeeps(cfg: GuardConfig, bad: map<Ip, BadWindow>, ip: Ip, now: real, victim: Ip)
    ensures var fewer := BadHeadroom(cfg, bad, ip, now, victim);
            fewer.Keys <= bad.Keys && forall k :: k in fewer ==> fewer[k] == bad[k]
  {
  }

  lemma PendingSet(ops: seq<Op>, pending: map<Ip, set<nat>>, bad: map<Ip, BadWindow>, now: real,
                   ip: Ip, positions: set<nat>, w: BadWindow)
    requires PendingOk(ops, pending, bad, now)
    requires |positions| == w.count && w.start <= now && BadRequests(ops, positions, ip, w.start, now)
    ensures PendingOk(ops, pending[ip := positions], bad[ip := w], now)
  {
  }

  lemma PendingBad(cfg: GuardConfig, ops: seq<Op>, g: Guard, l: Ledger, t: real, now: real, ip: Ip, v: Victims)
    requires t <= now && cfg.NonNegative() && !ip.IsUnspecified() && PendingOk(ops, l.pending, g.bad, t)
    ensures PendingOk(ops + [Bad(now, ip, v)], Post(cfg, g, l, Bad(now, ip, v), |ops|).pending,
                      RecordBad(cfg, g, ip, now, v).bad, now)
  {
    HeadroomKeeps(cfg, g.bad, ip, now, v.bad);
    hide BadHeadroom, BannedHeadroom, PendingOk, CurrentWindow, Counted, BadRequests, Keep;
    var bad := BadHeadroom(cfg, g.bad, ip, now, v.bad);
    var kept := Keep(l.pending, bad.Keys);
    var counted := Counted(cfg, bad, kept, now, ip, |ops|);
    var all := ops + [Bad(now, ip, v)];
    KeepOk(ops, l.pending, g.bad, bad, t, now, Bad(now, ip, v));
    CountedOk(cfg, ops, kept, bad, t, now, ip, v);
    var w := CurrentWindow(cfg, bad, ip, now);
    if CountBad(cfg, w, now).1 {
      NoRequests(all, ip, now);
      PendingSet(all, kept, bad, now, ip, {}, BadWindow(0, now));
    } else {
      StartsBefore(cfg, ops, kept, bad, t, now, ip);
      PendingSet(all, kept, bad, now, ip, counted, BadWindow(w.count + 1, w.start));
    }
  }

  lemma NoRequests(ops: seq<Op>, ip: Ip, now: real)
    ensures BadRequests(ops, {}, ip, now, now)
  {
  }

  lemma StartsBefore(cfg: GuardConfig, ops: seq<Op>, pending: map<Ip, set<nat>>, bad: map<Ip, BadWindow>,
                     t: real, now: real, ip: Ip)
    requires t <= now && PendingOk(ops, pending, bad, t)
    ensures CurrentWindow(cfg, bad, ip, now).start <= now
  {
  }

  lemma PendingStep(cfg: GuardConfig, ops: seq<Op>, g: Guard, l: Ledger, t: real, op: Op)
    requires t <= op.now && cfg.NonNegative() && PendingOk(ops, l.pending, g.bad, t)
    ensures PendingOk(ops + [op], Post(cfg, g, l, op, |ops|).pending, Next(cfg, g, op).bad, op.now)
  {
    KeepOk(ops, l.pending, g.bad, g.bad, t, op.now, op);
    assert Keep(l.pending, g.bad.Keys) == l.pending;
    match op
    case Bad(now, ip, v) =>
      if !ip.IsUnspecified() {
        PendingBad(cfg, ops, g, l, t, now, ip, v);
      }
    case Ask(now, ip) =>
    case Forget(now) =>
      KeepOk(ops, l.pending, g.bad, PruneGuard(cfg, g, now).bad, t, now, op);
  }

  lemma CreditsStay(cfg: GuardConfig, ops: seq<Op>, op: Op, bans: seq<(Ip, real)>, credits: seq<set<nat>>)
    requires CreditsOk(cfg, ops, bans, credits)
    ensures CreditsOk(cfg, ops + [op], bans, credits)
  {
  }

  lemma CreditsGrow(cfg: GuardConfig, ops: seq<Op>, bans: seq<(Ip, real)>, credits: seq<set<nat>>,
                    ip: Ip, now: real, credit: set<nat>)
    requires CreditsOk(cfg, ops, bans, credits)
    requires |credit| >= cfg.Needed() && BadRequests(ops, credit, ip, now - cfg.window, now)
    ensures CreditsOk(cfg, ops, bans + [(ip, now)], credits + [credit])
  {
  }

  lemma Widen(ops: seq<Op>, positions: set<nat>, ip: Ip, from: real, lower: real, to: real)
    requires BadRequests(ops, positions, ip, from, to) && lower <= from
    ensures BadRequests(ops, positions, ip, lower, to)
  {
  }

  /** A ban is paid for by the whole window it closes. */
  lemma CreditStep(cfg: GuardConfig, ops: seq<Op>, g: Guard, l: Ledger, t: real, op: Op, bans: seq<(Ip, real)>)
    requires t <= op.now && cfg.NonNegative() && PendingOk(ops, l.pending, g.bad, t)
    requires CreditsOk(cfg, ops, bans, l.credits)
    ensures var banned := op.Bad? && Bans(cfg, g, op.ip, op.now, op.v);
            CreditsOk(cfg, ops + [op], if banned then bans + [(op.ip, op.now)] else bans,
                      Post(cfg, g, l, op, |ops|).credits)
  {
    hide BadHeadroom, BannedHeadroom, PendingOk, Counted, Keep, CreditsOk, BadRequests, CurrentWindow, FreshWindows;
    CreditsStay(cfg, ops, op, bans, l.credits);
    if op.Bad? && Bans(cfg, g, op.ip, op.now, op.v) {
      HeadroomKeeps(cfg, g.bad, op.ip, op.now, op.v.bad);
      var bad := BadHeadroom(cfg, g.bad, op.ip, op.now, op.v.bad);
      var kept := Keep(l.pending, bad.Keys);
      var counted := Counted(cfg, bad, kept, op.now, op.ip, |ops|);
      KeepOk(ops, l.pending, g.bad, bad, t, op.now, op);
      CountedOk(cfg, ops, kept, bad, t, op.now, op.ip, op.v);
      Widen(ops + [op], counted, op.ip, CurrentWindow(cfg, bad, op.ip, op.now).start, op.now - cfg.window, op.now);
      CreditsGrow(cfg, ops + [op], bans, l.credits, op.ip, op.now, counted);
    }
  }

  lemma TwiceStep(cfg: GuardConfig, ops: seq<Op>, g: Guard, l: Ledger, t: real, op: Op, bans: seq<(Ip, real)>)
    requires PendingOk(ops, l.pending, g.bad, t) && CreditsOk(cfg, ops, bans, l.credits) && NothingTwice(l)
    ensures NothingTwice(Post(cfg, g, l, op, |ops|))
  {
    hide BadHeadroom;
    forall b | 0 <= b < |l.credits| ensures |ops| !in l.credits[b] {
      assert BadRequests(ops, l.credits[b], bans[b].0, bans[b].1 - cfg.window, bans[b].1);
    }
  }

  lemma BooksAfter(cfg: GuardConfig, ops: seq<Op>, op: Op)
    requires LegalRun(cfg, ops + [op])
    ensures LegalRun(cfg, ops) && (ops == [] || Now(ops) <= op.now) && Now(ops + [op]) == op.now
    ensures var g := After(cfg, ops);
            && After(cfg, ops + [op]) == Next(cfg, g, op)
            && Books(cfg, ops + [op]) == Post(cfg, g, Books(cfg, ops), op, |ops|)
            && BanEvents(cfg, ops + [op])
               == BanEvents(cfg, ops) + if op.Bad? && Bans(cfg, g, op.ip, op.now, op.v) then [(op.ip, op.now)] else []
  {
    hide Post, Next, Bans, Legal;
    assert (ops + [op])[..|ops|] == ops;
  }

  lemma {:induction false} BooksOk(cfg: GuardConfig, ops: seq<Op>)
    requires cfg.NonNegative() && LegalRun(cfg, ops)
    ensures PendingOk(ops, Books(cfg, ops).pending, After(cfg, ops).bad, Now(ops))
    ensures CreditsOk(cfg, ops, BanEvents(cfg, ops), Books(cfg, ops).credits)
    ensures NothingTwice(Books(cfg, ops))
  {
    if ops != [] {
      var before, op := ops[..|ops| - 1], ops[|ops| - 1];
      assert ops == before + [op];
      BooksAfter(cfg, before, op);
      var g, l, bans := After(cfg, before), Books(cfg, before), BanEvents(cfg, before);
      var t := if before == [] then op.now else Now(before);
      BooksOk(cfg, before);
      assert PendingOk(before, l.pending, g.bad, t);
      hide Post, Next, PendingOk, CreditsOk, NothingTwice, Bans, Legal, LegalRun, After, Books, BanEvents, Now;
      PendingStep(cfg, before, g, l, t, op);
      CreditStep(cfg, before, g, l, t, op, bans);
      TwiceStep(cfg, before, g, l, t, op, bans);
    }
  }

  ghost predicate Earned(cfg: GuardConfig, ops: seq<Op>, ban: (Ip, real), credit: set<nat>) {
    |credit| >= cfg.Needed() && BadRequests(ops, credit, ban.0, ban.1 - cfg.window, ban.1)
  }

  /**
   * Every ban of every run is paid for by `threshold` bad requests of its IP in the window before it, and the
   * payments of different bans do not overlap.
   */
  lemma EveryBanIsEarned(cfg: GuardConfig, ops: seq<Op>)
    requires cfg.NonNegative() && LegalRun(cfg, ops)
    ensures exists credits: seq<set<nat>> ::
              && |credits| == |BanEvents(cfg, ops)|
              && (forall b :: 0 <= b < |credits| ==> Earned(cfg, ops, BanEvents(cfg, ops)[b], credits[b]))
              && (forall a, b :: 0 <= a < b < |credits| ==> credits[a] !! credits[b])
  {
    BooksOk(cfg, ops);
    assert |Books(cfg, ops).credits| == |BanEvents(cfg, ops)|;
  }

  // ---------------------------------------------------------------- from bans to answers

  /** Every entry of the ban map comes from a ban of the run, and ends ban_duration after it. */
  lemma {:induction false} BannedByEvent(cfg: GuardConfig, ops: seq<Op>, ip: Ip)
    requires LegalRun(cfg, ops) && ip in After(cfg, ops).banned
    ensures exists b :: 0 <= b < |BanEvents(cfg, ops)| && BanEvents(cfg, ops)[b].0 == ip
                     && After(cfg, ops).banned[ip] == BanEvents(cfg, ops)[b].1 + cfg.banDuration
  {
    var before, op := ops[..|ops| - 1], ops[|ops| - 1];
    var prior, post := After(cfg, before), After(cfg, ops);
    var bans := BanEvents(cfg, ops);
    if op.Bad? && Bans(cfg, prior, op.ip, op.now, op.v) && op.ip == ip {
      assert bans[|bans| - 1] == (ip, op.now);
    } else {
      assert ip in prior.banned && post.banned[ip] == prior.banned[ip];
      BannedByEvent(cfg, before, ip);
      var b :| 0 <= b < |BanEvents(cfg, before)| && BanEvents(cfg, before)[b].0 == ip
            && prior.banned[ip] == BanEvents(cfg, before)[b].1 + cfg.banDuration;
      assert bans[b] == BanEvents(cfg, before)[b];
    }
  }

  /** An IP that is answered to be banned at t was banned less than ban_duration before t. */
  lemma BannedAnswersAreJust(cfg: GuardConfig, ops: seq<Op>, ip: Ip, t: real)
    requires cfg.NonNegative() && LegalRun(cfg, ops) && IsBanned(After(cfg, ops), ip, t).1
    ensures exists b :: 0 <= b < |BanEvents(cfg, ops)| && BanEvents(cfg, ops)[b].0 == ip
                     && t < BanEvents(cfg, ops)[b].1 + cfg.banDuration
  {
    BannedByEvent(cfg, ops, ip);
  }
}
