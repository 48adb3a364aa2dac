/**
 * The bound on retention is exact: with fewer days there is a run, prompt and without a fault, in which a purge
 * forgets an event while a second delivery of it is still waiting, and the event is inserted again.
 */
module PipelineExact {
  import opened Store
  import opened Pipeline

  lemma Cons(p: Policy, s: Pipe, step: Step, rest: seq<Step>, waits: nat)
    requires Enabled(s, step) && Prompt(s, step, waits) && LegalRun(p, Next(p, s, step), rest, waits)
    ensures LegalRun(p, s, [step] + rest, waits)
    ensures Run(p, s, [step] + rest, waits) == Run(p, Next(p, s, step), rest, waits)
  {
    hide Enabled, Prompt, Next;
    assert ([step] + rest)[0] == step && ([step] + rest)[1..] == rest;
  }

  /** The state after a buffered row was copied and merged under a key that is not stored. */
  function Stored(s: Pipe, row: Row): Pipe {
    s.(buf := [], phase := Idle, history := s.history + [map[row.Key() := row]],
       db := Db([], s.db.events[row.Key() := row], s.db.days + {row.Day()}))
  }

  lemma OneRow(row: Row)
    ensures Distinct([row]) == map[row.Key() := row] && Days([row]) == {row.Day()}
  {
    assert [row][..0] == [];
  }

  lemma FlushStores(p: Policy, s: Pipe, row: Row, rest: seq<Step>, waits: nat)
    requires s.phase.Idle? && s.buf == [row] && s.db.staging == [] && row.Key() !in s.db.events
    requires DayOf(s.now) <= DayOf(row.receivedAt) + waits
    requires LegalRun(p, Stored(s, row), rest, waits)
    ensures var steps := [Copy] + ([Ensure] + ([Merge([row])] + rest));
            LegalRun(p, s, steps, waits) && Run(p, s, steps, waits) == Run(p, Stored(s, row), rest, waits)
  {
    OneRow(row);
    assert [] + [row] == [row];
    var copied := Next(p, s, Copy);
    var ensured := Next(p, copied, Ensure);
    assert ensured.db == Db([row], s.db.events, s.db.days + {row.Day()});
    assert Next(p, ensured, Merge([row])) == Stored(s, row) by {
      assert map[row.Key() := row] + s.db.events == s.db.events[row.Key() := row];
      assert NewRows(ensured.db, [row]) == map[row.Key() := row];
    }
    hide Run, LegalRun, Distinct, NewRows, Store.Merge, Stored, Days;
    Cons(p, ensured, Merge([row]), rest, waits);
    Cons(p, copied, Ensure, [Merge([row])] + rest, waits);
    Cons(p, s, Copy, [Ensure] + ([Merge([row])] + rest), waits);
  }

  // ---------------------------------------------------------------- the run

  /** An event as old as the window admits when it is received at midnight. */
  function Oldest(p: Policy): Event {
    Event(Key(SkewDays(p) * DAY - p.maxPast, "e"), "")
  }

  function Received(p: Policy): Row {
    Row(Oldest(p), SkewDays(p) * DAY)
  }

  /** The event is stored, and delivered once more. */
  function AfterFirst(p: Policy): Pipe {
    var (e, r) := (Oldest(p), Received(p));
    Pipe(r.receivedAt, {e}, {e}, [[r]], [], Idle, Db([], map[r.Key() := r], {r.Day()}), [map[r.Key() := r]])
  }

  /** It is purged, and its second delivery taken up. */
  function AfterPurge(p: Policy, waits: nat): Pipe {
    var (e, r) := (Oldest(p), Received(p));
    Pipe((SkewDays(p) + waits) * DAY, {e}, {e}, [], [r], Idle, EmptyDb, [map[r.Key() := r]])
  }

  function SecondHalf(p: Policy, waits: nat): seq<Step> {
    [Wait((SkewDays(p) + waits) * DAY)] + ([Purge] + ([Receive]
      + ([Copy] + ([Ensure] + ([Merge([Received(p)])] + [])))))
  }

  function FirstHalf(p: Policy, rest: seq<Step>): seq<Step> {
    var e := Oldest(p);
    [Track(e)] + ([Send(e)] + ([Deliver([e])] + ([Receive] + ([Deliver([e])]
      + ([Copy] + ([Ensure] + ([Merge([Received(p)])] + rest)))))))
  }

  lemma OldestDay(p: Policy)
    ensures Received(p).Day() == 0 && DayOf(SkewDays(p) * DAY) == SkewDays(p)
    ensures Admitted(p, [Oldest(p)], SkewDays(p) * DAY) == [Received(p)]
  {
    assert 0 <= SkewDays(p) * DAY - p.maxPast < DAY;
    assert [Oldest(p)][1..] == [];
  }

  lemma SecondInsert(p: Policy, waits: nat)
    requires p.retentionDays < SkewDays(p) + waits
    ensures LegalRun(p, AfterFirst(p), SecondHalf(p, waits), waits)
    ensures Run(p, AfterFirst(p), SecondHalf(p, waits), waits) == Stored(AfterPurge(p, waits), Received(p))
  {
    var (row, s0, s3) := (Received(p), AfterFirst(p), AfterPurge(p, waits));
    OldestDay(p);
    var s1 := Next(p, s0, Wait((SkewDays(p) + waits) * DAY));
    assert DayOf((SkewDays(p) + waits) * DAY) == SkewDays(p) + waits;
    var s2 := Next(p, s1, Purge);
    assert s2.db.events == map[] && s2.db.days == {};
    assert Next(p, s2, Receive) == s3;
    hide Distinct, SkewDays;
    FlushStores(p, s3, row, [], waits);
    hide Run, LegalRun, Stored;
    var flush := [Copy] + ([Ensure] + ([Merge([row])] + []));
    Cons(p, s2, Receive, flush, waits);
    Cons(p, s1, Purge, [Receive] + flush, waits);
    Cons(p, s0, Wait((SkewDays(p) + waits) * DAY), [Purge] + ([Receive] + flush), waits);
    assert Run(p, Stored(s3, row), [], waits) == Stored(s3, row) by { NoSteps(p, Stored(s3, row), waits); }
  }

  lemma NoSteps(p: Policy, s: Pipe, waits: nat)
    ensures LegalRun(p, s, [], waits) && Run(p, s, [], waits) == s
  {
  }

  lemma FirstInsert(p: Policy, rest: seq<Step>, waits: nat)
    requires p.capacity >= 1 && LegalRun(p, AfterFirst(p), rest, waits)
    ensures var start := Start(SkewDays(p) * DAY);
            && LegalRun(p, start, FirstHalf(p, rest), waits)
            && Run(p, start, FirstHalf(p, rest), waits) == Run(p, AfterFirst(p), rest, waits)
  {
    var e, row, s0 := Oldest(p), Received(p), Start(SkewDays(p) * DAY);
    OldestDay(p);
    hide Admitted, SkewDays;
    var s1 := Next(p, s0, Track(e));
    var s2 := Next(p, s1, Send(e));
    var s3 := Next(p, s2, Deliver([e]));
    var s4 := Next(p, s3, Receive);
    var s5 := Next(p, s4, Deliver([e]));
    assert s5 == Pipe(row.receivedAt, {e}, {e}, [[row]], [row], Idle, EmptyDb, []);
    assert Stored(s5, row) == AfterFirst(p);
    FlushStores(p, s5, row, rest, waits);
    hide Run, LegalRun, Stored, AfterFirst;
    var flush := [Copy] + ([Ensure] + ([Merge([row])] + rest));
    Cons(p, s4, Deliver([e]), flush, waits);
    Cons(p, s3, Receive, [Deliver([e])] + flush, waits);
    Cons(p, s2, Deliver([e]), [Receive] + ([Deliver([e])] + flush), waits);
    Cons(p, s1, Send(e), [Deliver([e])] + ([Receive] + ([Deliver([e])] + flush)), waits);
    Cons(p, s0, Track(e), [Send(e)] + ([Deliver([e])] + ([Receive] + ([Deliver([e])] + flush))), waits);
  }

  lemma InsertedTwice(p: Policy, waits: nat)
    requires p.capacity >= 1 && p.retentionDays < SkewDays(p) + waits
    ensures var (start, steps) := (Start(SkewDays(p) * DAY), FirstHalf(p, SecondHalf(p, waits)));
            LegalRun(p, start, steps, waits) && !InsertedOnce(Run(p, start, steps, waits).history)
  {
    SecondInsert(p, waits);
    FirstInsert(p, SecondHalf(p, waits), waits);
    hide Run, LegalRun, FirstHalf, SecondHalf;
    var m := map[Received(p).Key() := Received(p)];
    var h := Stored(AfterPurge(p, waits), Received(p)).history;
    assert h[0] == m && h[1] == m && Received(p).Key() in m.Keys;
    assert !(h[0].Keys !! h[1].Keys);
  }

  /** Lifetime at most once holds exactly when retention outlasts the skew window and the waiting together. */
  lemma AtMostOnceExactly(p: Policy, waits: nat)
    requires p.capacity >= 1
    ensures p.retentionDays >= SkewDays(p) + waits <==>
            forall now, steps :: LegalRun(p, Start(now), steps, waits) ==>
              InsertedOnce(Run(p, Start(now), steps, waits).history)
  {
    if p.retentionDays >= SkewDays(p) + waits {
      forall now, steps | LegalRun(p, Start(now), steps, waits)
        ensures InsertedOnce(Run(p, Start(now), steps, waits).history)
      {
        AtMostOnce(p, now, steps, waits);
      }
    } else {
      InsertedTwice(p, waits);
    }
  }
}
