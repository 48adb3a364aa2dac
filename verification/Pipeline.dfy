/**
 * The whole pipeline as steps: clients that send an event any number of times, a network that delivers what was
 * sent any number of times, the skew window, the bounded channel, a flush whose statements can each fail, the
 * purge between any two of them, crashes, and the drain of staging at the next start.
 */
module Pipeline {
  import opened Store

  datatype Policy = Policy(maxPast: nat, maxFuture: nat, retentionDays: int, capacity: nat)

  /** Where the writer is: between flushes, or with rows staged and the next statement still to come. */
  datatype Phase = Idle | Copied | Ensured

  /** `history` is kept for the proofs: the rows that each committed merge inserted. */
  datatype Pipe = Pipe(now: int, tracked: set<Event>, wire: set<Event>, queue: seq<seq<Row>>, buf: seq<Row>,
                       phase: Phase, db: Db, history: seq<map<Key, Row>>)

  /**
   * The staged rows are kept or lost in a crash, and emptied or not after a failed flush (`reset`). Restart is the
   * drain of what a crash left in staging: a flush that copies nothing.
   */
  datatype Step =
    | Track(e: Event) | Send(e: Event) | Deliver(es: seq<Event>)
    | Receive | Copy | CopyFails(reset: bool) | Ensure | Merge(scan: seq<Row>) | Fail(reset: bool)
    | Purge | Wait(until: int) | Crash(keepsStaging: bool) | Restart

  function Start(now: int): Pipe {
    Pipe(now, {}, {}, [], [], Idle, EmptyDb, [])
  }

  predicate InWindow(p: Policy, e: Event, receivedAt: int) {
    receivedAt - p.maxPast <= e.key.timestamp <= receivedAt + p.maxFuture
  }

  /** The events of a request that are inside the skew window, stamped. */
  function Admitted(p: Policy, es: seq<Event>, receivedAt: int): seq<Row> {
    if es == [] then []
    else (if InWindow(p, es[0], receivedAt) then [Row(es[0], receivedAt)] else []) + Admitted(p, es[1..], receivedAt)
  }

  function NewRows(db: Db, scan: seq<Row>): map<Key, Row> {
    var d := Distinct(scan);
    map k | k in d && k !in db.events :: d[k]
  }

  ghost predicate Enabled(s: Pipe, step: Step) {
    match step
    case Track(e) => forall f :: f in s.tracked ==> f.key.id != e.key.id
    case Send(e) => e in s.tracked
    case Deliver(es) => forall i :: 0 <= i < |es| ==> es[i] in s.wire
    case Receive => s.phase.Idle? && s.queue != []
    case Copy => s.phase.Idle? && s.buf != []
    case CopyFails(_) => s.phase.Idle? && s.buf != []
    case Ensure => s.phase.Copied?
    case Merge(scan) => s.phase.Ensured? && CanMerge(s.db) && IsScan(s.db, scan)
    case Fail(_) => !s.phase.Idle?
    case Purge => true
    case Wait(until) => s.now <= until
    case Crash(_) => true
    case Restart => s.phase.Idle? && s.queue == [] && s.buf == []
  }

  function Emptied(db: Db, emptied: bool): Db {
    if emptied then db.(staging := []) else db
  }

  ghost function Next(p: Policy, s: Pipe, step: Step): Pipe
    requires Enabled(s, step)
  {
    match step
    case Track(e) => s.(tracked := s.tracked + {e})
    case Send(e) => s.(wire := s.wire + {e})
    case Deliver(es) =>
      if |s.queue| < p.capacity then s.(queue := s.queue + [Admitted(p, es, s.now)]) else s
    case Receive => s.(queue := s.queue[1..], buf := s.buf + s.queue[0])
    case Copy => s.(db := CopyIn(s.db, s.buf), buf := [], phase := Copied)
    case CopyFails(reset) => s.(db := Emptied(s.db, reset), buf := [])
    case Ensure => s.(db := EnsureForStaging(s.db), phase := Ensured)
    case Merge(scan) => s.(db := Store.Merge(s.db, scan), phase := Idle, history := s.history + [NewRows(s.db, scan)])
    case Fail(reset) => s.(db := Emptied(s.db, reset), phase := Idle)
    case Purge => s.(db := DropBefore(s.db, DayOf(s.now) - p.retentionDays))
    case Wait(until) => s.(now := until)
    case Crash(keeps) => s.(queue := [], buf := [], phase := Idle, db := Emptied(s.db, !keeps))
    case Restart => s.(phase := Copied)
  }

  /** No row that a merge writes has waited past more than `waits` midnights since it was received. */
  ghost predicate Prompt(s: Pipe, step: Step, waits: nat) {
    step.Merge? ==>
      forall i :: 0 <= i < |s.db.staging| ==> DayOf(s.now) <= DayOf(s.db.staging[i].receivedAt) + waits
  }

  ghost predicate LegalRun(p: Policy, s: Pipe, steps: seq<Step>, waits: nat)
    decreases |steps|
  {
    steps == []
    || (Enabled(s, steps[0]) && Prompt(s, steps[0], waits) && LegalRun(p, Next(p, s, steps[0]), steps[1..], waits))
  }

  ghost function Run(p: Policy, s: Pipe, steps: seq<Step>, waits: nat): Pipe
    requires LegalRun(p, s, steps, waits)
    decreases |steps|
  {
    if steps == [] then s else Run(p, Next(p, s, steps[0]), steps[1..], waits)
  }

  // ---------------------------------------------------------------- days

  /** The midnights that an event of the greatest admitted age can lie back. */
  function SkewDays(p: Policy): nat {
    (p.maxPast + DAY - 1) / DAY
  }

  lemma DayMonotone(t: int, u: int)
    requires t <= u
    ensures DayOf(t) <= DayOf(u)
  {
  }

  lemma SkewInDays(p: Policy, timestamp: int, receivedAt: int)
    requires timestamp >= receivedAt - p.maxPast
    ensures DayOf(timestamp) >= DayOf(receivedAt) - SkewDays(p)
  {
    assert p.maxPast <= SkewDays(p) * DAY;
    assert DayOf(receivedAt - SkewDays(p) * DAY) == DayOf(receivedAt) - SkewDays(p);
  }

  // ---------------------------------------------------------------- what every step keeps

  ghost predicate RowsOk(p: Policy, tracked: set<Event>, now: int, rows: seq<Row>) {
    forall i :: 0 <= i < |rows| ==>
      rows[i].event in tracked && rows[i].receivedAt <= now
      && rows[i].event.key.timestamp >= rows[i].receivedAt - p.maxPast
  }

  ghost predicate StoredOk(tracked: set<Event>, m: map<Key, Row>) {
    forall k :: k in m ==> m[k].event in tracked && m[k].Key() == k
  }

  /** What is on the way, stored or recorded is a tracked event, unchanged, and inside the window when received. */
  ghost predicate Genuine(p: Policy, s: Pipe) {
    && s.wire <= s.tracked
    && (forall e, f :: e in s.tracked && f in s.tracked && e.key.id == f.key.id ==> e == f)
    && (forall i :: 0 <= i < |s.queue| ==> RowsOk(p, s.tracked, s.now, s.queue[i]))
    && RowsOk(p, s.tracked, s.now, s.buf) && RowsOk(p, s.tracked, s.now, s.db.staging)
      && StoredOk(s.tracked, s.db.events)
    && forall i :: 0 <= i < |s.history| ==> StoredOk(s.tracked, s.history[i])
  }

  /** What was ever inserted is still stored, or so old that the purge drops it from now on. */
  ghost predicate Remembered(p: Policy, s: Pipe) {
    forall i, k :: 0 <= i < |s.history| && k in s.history[i] ==>
      k in s.db.events || DayOf(k.timestamp) < DayOf(s.now) - p.retentionDays
  }

  /** No key is inserted by two merges. */
  ghost predicate InsertedOnce(history: seq<map<Key, Row>>) {
    forall i, j :: 0 <= i < j < |history| ==> history[i].Keys !! history[j].Keys
  }

  lemma {:induction false} AdmittedOk(p: Policy, s: Pipe, es: seq<Event>)
    requires s.wire <= s.tracked && forall i :: 0 <= i < |es| ==> es[i] in s.wire
    ensures RowsOk(p, s.tracked, s.now, Admitted(p, es, s.now))
  {
    if es != [] {
      AdmittedOk(p, s, es[1..]);
    }
  }

  lemma ExtendsStaysOk(p: Policy, s: Pipe, after: map<Key, Row>)
    requires RowsOk(p, s.tracked, s.now, s.db.staging) && StoredOk(s.tracked, s.db.events)
             && Extends(s.db.events, s.db.staging, after)
    ensures StoredOk(s.tracked, after)
  {
    hide Keys;
  }

  lemma NewRowsAreStored(db: Db, scan: seq<Row>)
    ensures var after := Store.Merge(db, scan).events;
            forall k :: k in NewRows(db, scan) ==> k in after && NewRows(db, scan)[k] == after[k]
  {
    hide Distinct;
  }

  lemma MergeKeepsGenuine(p: Policy, s: Pipe, scan: seq<Row>)
    requires Genuine(p, s) && Enabled(s, Merge(scan))
    ensures Genuine(p, Next(p, s, Merge(scan)))
  {
    assert Store.Merge(s.db, scan).staging == [];
    NothingOk(p, s);
    hide Inserted, Extends, NewRows, RowsOk, CanMerge, StoredOk, Store.Merge;
    MergeExtends(s.db, scan);
    NewRowsAreStored(s.db, scan);
    ExtendsStaysOk(p, s, Store.Merge(s.db, scan).events);
    PartStaysOk(s.tracked, NewRows(s.db, scan), Store.Merge(s.db, scan).events);
    hide IsScan;
  }

  lemma PartStaysOk(tracked: set<Event>, part: map<Key, Row>, all: map<Key, Row>)
    requires StoredOk(tracked, all) && forall k :: k in part ==> k in all && part[k] == all[k]
    ensures StoredOk(tracked, part)
  {
  }

  lemma NothingOk(p: Policy, s: Pipe)
    ensures RowsOk(p, s.tracked, s.now, [])
  {
  }

  lemma StaysOk(p: Policy, s: Pipe, tracked: set<Event>, now: int)
    requires s.tracked <= tracked && s.now <= now
    ensures forall rows :: RowsOk(p, s.tracked, s.now, rows) ==> RowsOk(p, tracked, now, rows)
    ensures forall m :: StoredOk(s.tracked, m) ==> StoredOk(tracked, m)
  {
  }

  lemma StepKeepsGenuine(p: Policy, s: Pipe, step: Step)
    requires Genuine(p, s) && Enabled(s, step)
    ensures Genuine(p, Next(p, s, step))
  {
    match step
    case Deliver(es) =>
      AdmittedOk(p, s, es);
      hide Admitted;
    case Merge(scan) => MergeKeepsGenuine(p, s, scan);
    case Track(e) =>
      StaysOk(p, s, s.tracked + {e}, s.now);
      hide RowsOk, StoredOk;
    case Wait(until) =>
      StaysOk(p, s, s.tracked, until);
      hide RowsOk, StoredOk;
    case _ => hide Days, CanMerge, IsScan, Distinct, NewRows;
  }

  lemma {:induction false} RunKeepsGenuine(p: Policy, s: Pipe, steps: seq<Step>, waits: nat)
    requires Genuine(p, s) && LegalRun(p, s, steps, waits)
    ensures Genuine(p, Run(p, s, steps, waits))
    decreases |steps|
  {
    if steps != [] {
      hide Genuine, Next, Enabled, Prompt;
      StepKeepsGenuine(p, s, steps[0]);
      RunKeepsGenuine(p, Next(p, s, steps[0]), steps[1..], waits);
    }
  }

  /** Every stored row is an event some client tracked, unchanged, under its own key: over all runs. */
  lemma OnlyTrackedEventsAreStored(p: Policy, now: int, steps: seq<Step>, waits: nat, k: Key)
    requires LegalRun(p, Start(now), steps, waits)
    ensures var s := Run(p, Start(now), steps, waits);
            k in s.db.events ==> && s.db.events[k].event in s.tracked && s.db.events[k].event.key == k
                                 && forall e :: e in s.tracked && e.key.id == k.id ==> e == s.db.events[k].event
  {
    RunKeepsGenuine(p, Start(now), steps, waits);
  }

  // ---------------------------------------------------------------- at most once, ever

  lemma StepRemembers(p: Policy, s: Pipe, step: Step)
    requires Enabled(s, step) && Remembered(p, s)
    ensures Remembered(p, Next(p, s, step))
  {
    match step
    case Wait(until) => DayMonotone(s.now, until);
    case Merge(scan) =>
      assert Store.Merge(s.db, scan).events.Keys == Distinct(scan).Keys + s.db.events.Keys;
      hide IsScan, Distinct;
    case _ =>
  }

  lemma NewRowIsStaged(db: Db, scan: seq<Row>, k: Key) returns (i: nat)
    requires IsScan(db, scan) && k in NewRows(db, scan)
    ensures k !in db.events && i < |db.staging| && db.staging[i].Key() == k
  {
    NewRowsAreStored(db, scan);
    assert k !in db.events;
    hide NewRows, Store.Merge, IsScan, Inserted;
    MergeExtends(db, scan);
    var r := Store.Merge(db, scan).events[k];
    i :| 0 <= i < |db.staging| && db.staging[i] == r;
  }

  lemma StagedIsYoung(p: Policy, s: Pipe, scan: seq<Row>, waits: nat, i: nat)
    requires Genuine(p, s) && Prompt(s, Merge(scan), waits) && i < |s.db.staging|
    ensures s.db.staging[i].Day() >= DayOf(s.now) - waits - SkewDays(p)
  {
    SkewInDays(p, s.db.staging[i].event.key.timestamp, s.db.staging[i].receivedAt);
  }

  /** A key that was inserted and purged cannot come back in a row that is prompt. */
  lemma PurgedStaysOut(p: Policy, s: Pipe, scan: seq<Row>, waits: nat, i: nat, k: Key)
    requires Genuine(p, s) && Remembered(p, s) && Prompt(s, Merge(scan), waits) && IsScan(s.db, scan)
    requires p.retentionDays >= SkewDays(p) + waits
    requires i < |s.history| && k in s.history[i]
    ensures k !in NewRows(s.db, scan)
  {
    if k in NewRows(s.db, scan) {
      var j := NewRowIsStaged(s.db, scan, k);
      StagedIsYoung(p, s, scan, waits, j);
      assert false;
    }
  }

  lemma StepInsertsOnce(p: Policy, s: Pipe, step: Step, waits: nat)
    requires Genuine(p, s) && Remembered(p, s) && Enabled(s, step) && Prompt(s, step, waits)
    requires p.retentionDays >= SkewDays(p) + waits && InsertedOnce(s.history)
    ensures InsertedOnce(Next(p, s, step).history)
  {
    if step.Merge? {
      forall i, k | 0 <= i < |s.history| && k in s.history[i] ensures k !in NewRows(s.db, step.scan) {
        PurgedStaysOut(p, s, step.scan, waits, i, k);
      }
      hide NewRows, IsScan, Distinct, Genuine, Remembered, Prompt;
    }
  }

  lemma {:induction false} RunInsertsOnce(p: Policy, s: Pipe, steps: seq<Step>, waits: nat)
    requires Genuine(p, s) && Remembered(p, s) && InsertedOnce(s.history) && LegalRun(p, s, steps, waits)
    requires p.retentionDays >= SkewDays(p) + waits
    ensures InsertedOnce(Run(p, s, steps, waits).history)
    decreases |steps|
  {
    if steps != [] {
      hide Genuine, Remembered, InsertedOnce, Next, Enabled, Prompt;
      StepKeepsGenuine(p, s, steps[0]);
      StepRemembers(p, s, steps[0]);
      StepInsertsOnce(p, s, steps[0], waits);
      RunInsertsOnce(p, Next(p, s, steps[0]), steps[1..], waits);
    }
  }

  /** Lifetime at most once: over all runs, each key is inserted by at most one merge, purges and crashes included. */
  lemma AtMostOnce(p: Policy, now: int, steps: seq<Step>, waits: nat)
    requires LegalRun(p, Start(now), steps, waits) && p.retentionDays >= SkewDays(p) + waits
    ensures InsertedOnce(Run(p, Start(now), steps, waits).history)
  {
    RunInsertsOnce(p, Start(now), steps, waits);
  }

  /** As long as nothing was purged, no bound on retention or waiting is needed. */
  lemma {:induction false} AtMostOnceUnpurged(p: Policy, s: Pipe, steps: seq<Step>, waits: nat)
    requires LegalRun(p, s, steps, waits) && InsertedOnce(s.history)
    requires forall i :: 0 <= i < |steps| ==> !steps[i].Purge?
    requires forall i, k :: 0 <= i < |s.history| && k in s.history[i] ==> k in s.db.events
    ensures InsertedOnce(Run(p, s, steps, waits).history)
    decreases |steps|
  {
    if steps != [] {
      var s' := Next(p, s, steps[0]);
      if steps[0].Merge? {
        assert s'.db.events.Keys == Distinct(steps[0].scan).Keys + s.db.events.Keys;
      }
      hide IsScan, Distinct, Prompt, CanMerge;
      AtMostOnceUnpurged(p, s', steps[1..], waits);
    }
  }
}
