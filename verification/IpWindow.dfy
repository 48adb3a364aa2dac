/** The sliding window of distinct sessions seen from one IP. */
module IpWindow {
  import opened Common
  import opened TokenBucket

  /** The sessions of the window that are still inside it at `now`. */
  function Live(sessions: map<string, real>, now: real, window: real): (live: map<string, real>)
    ensures live.Keys <= sessions.Keys
  {
    map s | s in sessions && Elapsed(sessions[s], now) < window :: sessions[s]
  }

  ghost predicate IsOldest(sessions: map<string, real>, now: real, age: real) {
    && (exists s :: s in sessions && Elapsed(sessions[s], now) == age)
    && forall s :: s in sessions ==> Elapsed(sessions[s], now) <= age
  }

  lemma {:induction false} OldestExists(sessions: map<string, real>, now: real)
    requires sessions != map[]
    ensures exists age :: IsOldest(sessions, now, age)
    decreases |sessions|
  {
    var k :| k in sessions;
    var rest := sessions - {k};
    var a := Elapsed(sessions[k], now);
    assert forall s :: s in sessions ==> s == k || s in rest;
    if rest == map[] {
      assert IsOldest(sessions, now, a);
    } else {
      assert sessions.Keys == rest.Keys + {k};
      OldestExists(rest, now);
      var m :| IsOldest(rest, now, m);
      var s :| s in rest && Elapsed(rest[s], now) == m;
      assert s in sessions && Elapsed(sessions[s], now) == m;
      assert k in sessions && Elapsed(sessions[k], now) == a;
      assert IsOldest(sessions, now, MaxReal(a, m));
    }
  }

  /** The age of the session that has been in the window longest; `window` for an empty one. */
  ghost function OldestAge(sessions: map<string, real>, now: real, window: real): (age: real)
    ensures sessions != map[] ==> IsOldest(sessions, now, age)
    ensures sessions == map[] ==> age == window
  {
    if sessions == map[] then window
    else
      OldestExists(sessions, now);
      var age :| IsOldest(sessions, now, age);
      age
  }

  /** What `IpWindow::record` leaves in the window, and what it answers. */
  ghost function Recorded(sessions: map<string, real>, sid: string, now: real, cap: nat, window: real)
    : (map<string, real>, TakeResult)
  {
    var live := Live(sessions, now, window);
    if sid !in live && |live| >= cap then
      (live, Wait(MaxReal(MaxReal(window - OldestAge(live, now, window), 0.0), 1.0)))
    else
      (live[sid := now], Taken)
  }

  class Window {
    var sessions: map<string, real>
    var lastSeen: real
    /** The IP whose window this is. */
    ghost const owner: Ip

    constructor (now: real, ghost owner: Ip)
      ensures sessions == map[] && this.owner == owner
    {
      this.owner := owner;
      sessions := map[];
      lastSeen := now;
    }

    method Retain(now: real, window: real)
      modifies this`sessions
      ensures sessions == old(Live(sessions, now, window))
    {
      sessions := Live(sessions, now, window);
    }

    method Oldest(now: real, window: real) returns (age: real)
      ensures age == OldestAge(sessions, now, window)
    {
      if sessions == map[] {
        return window;
      }
      var k :| k in sessions;
      age := Elapsed(sessions[k], now);
      var todo := sessions.Keys - {k};
      while todo != {}
        invariant todo <= sessions.Keys
        invariant exists s :: s in sessions && Elapsed(sessions[s], now) == age
        invariant forall s :: s in sessions && s !in todo ==> Elapsed(sessions[s], now) <= age
        decreases |todo|
      {
        var s :| s in todo;
        age := MaxReal(age, Elapsed(sessions[s], now));
        todo := todo - {s};
      }
      assert IsOldest(sessions, now, age);
    }

    /** Admits `sid`, or answers how long until the oldest session of a full window leaves it. */
    method Record(sid: string, now: real, cap: nat, window: real) returns (r: TakeResult)
      modifies this
      ensures (sessions, r) == old(Recorded(sessions, sid, now, cap, window))
    {
      lastSeen := now;
      Retain(now, window);
      if sid in sessions {
        sessions := sessions[sid := now];
        return Taken;
      }
      if |sessions| >= cap {
        var oldest := Oldest(now, window);
        var wait := MaxReal(window - oldest, 0.0);
        return Wait(MaxReal(wait, 1.0));
      }
      sessions := sessions[sid := now];
      r := Taken;
    }
  }

  /** Dropping expired sessions early changes nothing later. */
  lemma LiveTwice(sessions: map<string, real>, t: real, now: real, window: real)
    requires t <= now
    ensures Live(Live(sessions, t, window), now, window) == Live(sessions, now, window)
  {
  }

  /** The window never holds more than `cap` sessions, and a session that passes is in it, stamped `now`. */
  lemma RecordedBounds(sessions: map<string, real>, sid: string, now: real, cap: nat, window: real)
    requires |sessions| <= cap
    ensures var (after, r) := Recorded(sessions, sid, now, cap, window);
            && |after| <= cap
            && (r.Taken? ==> sid in after && after[sid] == now)
  {
    var live := Live(sessions, now, window);
    SubsetSize(live.Keys, sessions.Keys);
    if sid in live {
      assert live[sid := now].Keys == live.Keys;
    } else {
      assert live[sid := now].Keys == live.Keys + {sid};
    }
  }

  /**
   * After a refusal by a window of capacity at least 1, waiting the announced delay lets any session in:
   * the oldest one has left.
   */
  lemma WaitSuffices(sessions: map<string, real>, sid: string, now: real, cap: nat, window: real,
                     other: string, later: real)
    requires 1 <= cap && |sessions| <= cap
    requires forall s :: s in sessions ==> sessions[s] <= now
    requires Recorded(sessions, sid, now, cap, window).1.Wait?
    requires later >= now + Recorded(sessions, sid, now, cap, window).1.secs
    ensures Recorded(Recorded(sessions, sid, now, cap, window).0, other, later, cap, window).1 == Taken
  {
    var live := Live(sessions, now, window);
    var age := OldestAge(live, now, window);
    assert live != map[];
    var s :| s in live && Elapsed(live[s], now) == age;
    var remaining := Live(live, later, window);
    assert s !in remaining;
    SubsetSize(remaining.Keys, live.Keys);
    SubsetSize(live.Keys, sessions.Keys);
  }
}
