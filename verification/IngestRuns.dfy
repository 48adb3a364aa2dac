/**
 * What becomes of the records over whole runs of the ingestion service, failed flushes, failed resets and
 * purges included: nothing appears or vanishes unaccounted, and a clean shutdown leaves nothing behind.
 */
module IngestRuns {
  import opened Common
  import opened Store
  import opened Ingest

  datatype Event = Enqueue(batch: seq<Row>) | Recv(o: Outcome) | Tick(o: Outcome) | Purge(day: int)

  /**
   * Kept beside the service: the records enqueued, how many were refused, the records that committed merges took
   * from staging, those thrown away by failed flushes, the number of rows that merges inserted, and how many of
   * these were inserted by merges whose reply was lost.
   */
  datatype Ledger = Ledger(accepted: seq<Row>, refused: nat, merged: multiset<Row>, lost: multiset<Row>,
                           added: nat, silent: nat)

  datatype World = World(service: Service, ledger: Ledger)

  function Fresh(db: Db): World {
    World(Start(db), Ledger([], 0, multiset{}, multiset{}, 0, 0))
  }

  /** What a merge takes out of staging, and how many keys of it are new. */
  function Taken(db: Db, buf: seq<Row>): multiset<Row> {
    multiset(db.staging + buf)
  }

  function Gained(db: Db, buf: seq<Row>, scan: seq<Row>): nat {
    |Inserted(CopyIn(db, buf), scan)|
  }

  function BookFlush(l: Ledger, db: Db, buf: seq<Row>, o: Outcome): Ledger {
    if buf == [] then l
    else
      match o.fate
      case Merged(scan, replied) =>
        l.(merged := l.merged + Taken(db, buf), added := l.added + Gained(db, buf, scan),
           silent := l.silent + if replied then 0 else Gained(db, buf, scan))
      case NotCopied =>
        l.(lost := l.lost + multiset(buf) + if o.reset then multiset(db.staging) else multiset{})
      case _ =>
        l.(lost := l.lost + if o.reset then Taken(db, buf) else multiset{})
  }

  /** A flush, if the buffer is due. */
  function FlushWorld(w: World, due: bool, o: Outcome): World {
    if due then World(Flush(w.service, o), BookFlush(w.ledger, w.service.db, w.service.buf, o)) else w
  }

  function Moved(s: Service): Service
    requires s.queue != []
  {
    s.(queue := s.queue[1..], buf := s.buf + s.queue[0])
  }

  function Step(cfg: Config, w: World, e: Event): World {
    var (s, l) := (w.service, w.ledger);
    match e
    case Enqueue(batch) =>
      World(TryEnqueue(cfg, s, batch),
            if |s.queue| < cfg.capacity then l.(accepted := l.accepted + batch)
            else l.(refused := l.refused + |batch|))
    case Recv(o) =>
      if s.queue == [] then w else FlushWorld(World(Moved(s), l), |Moved(s).buf| >= cfg.flushBatchSize, o)
    case Tick(o) => FlushWorld(w, true, o)
    case Purge(day) => World(s.(db := DropBefore(s.db, day)), l)
  }

  lemma StepIsReceive(cfg: Config, w: World, o: Outcome)
    requires w.service.queue != []
    ensures Step(cfg, w, Recv(o)).service == Receive(cfg, w.service, o)
  {
  }

  ghost predicate Legal(w: World, e: Event) {
    match e
    case Recv(o) => w.service.queue == [] || LegalReceive(w.service, o)
    case Tick(o) => LegalFate(w.service.db, w.service.buf, o.fate)
    case _ => true
  }

  function Run(cfg: Config, w: World, es: seq<Event>): World
    decreases |es|
  {
    if es == [] then w else Run(cfg, Step(cfg, w, es[0]), es[1..])
  }

  ghost predicate LegalRun(cfg: Config, w: World, es: seq<Event>)
    decreases |es|
  {
    es == [] || (Legal(w, es[0]) && LegalRun(cfg, Step(cfg, w, es[0]), es[1..]))
  }

  /** The records in the service that are not yet on their way to the database, oldest first. */
  function Waiting(s: Service): seq<Row> {
    s.buf + Flat(s.queue)
  }

  lemma MovedWaits(s: Service)
    requires s.queue != []
    ensures Waiting(Moved(s)) == Waiting(s)
  {
    FlatHead(s.queue);
  }

  // ---------------------------------------------------------------- conservation

  /** Every record enqueued or found in staging is merged, lost, staged, or waiting: each occurrence in one place. */
  ghost predicate Conserved(start: Db, w: World) {
    multiset(w.ledger.accepted) + multiset(start.staging)
    == w.ledger.merged + w.ledger.lost + multiset(w.service.db.staging) + multiset(Waiting(w.service))
  }

  ghost predicate Counted(w: World) {
    var m, l := w.service.metrics, w.ledger;
    m.received == |l.accepted| && m.droppedFull == l.refused && m.inserted + l.silent == l.added
  }

  /** The buffer is below the flush size whenever the batcher waits. */
  predicate BufferBounded(cfg: Config, s: Service) {
    |s.buf| < Max(cfg.flushBatchSize, 1)
  }

  /** What a flush leaves in staging. */
  function Residue(staging: seq<Row>, buf: seq<Row>, o: Outcome): seq<Row> {
    if buf == [] then staging
    else if o.fate.Merged? || o.reset then []
    else if o.fate.NotCopied? then staging
    else staging + buf
  }

  lemma FlushFacts(s: Service, o: Outcome)
    ensures var s' := Flush(s, o);
            && s'.db.staging == Residue(s.db.staging, s.buf, o) && s'.buf == [] && s'.queue == s.queue
            && s'.metrics.received == s.metrics.received && s'.metrics.droppedFull == s.metrics.droppedFull
    ensures s.buf == [] || !o.fate.Merged? ==> Flush(s, o).db.events == s.db.events
    ensures s.buf == [] || o.Fails() ==> Flush(s, o).metrics.inserted == s.metrics.inserted
  {
    hide Distinct, Inserted;
  }

  lemma Sums(m: multiset<Row>, l: multiset<Row>, staged: multiset<Row>, buf: multiset<Row>, queued: multiset<Row>)
    ensures var all := m + l + staged + (buf + queued);
            && all == (m + (staged + buf)) + l + multiset{} + queued
            && all == m + (l + (buf + staged)) + multiset{} + queued
            && all == m + (l + (buf + multiset{})) + staged + queued
            && all == m + (l + (staged + buf)) + multiset{} + queued
            && all == m + (l + multiset{}) + (staged + buf) + queued
  {
    var all := m + l + staged + (buf + queued);
    assert all == (m + (staged + buf)) + l + multiset{} + queued;
    assert all == m + (l + (buf + staged)) + multiset{} + queued;
    assert all == m + (l + (buf + multiset{})) + staged + queued;
    assert all == m + (l + (staged + buf)) + multiset{} + queued;
    assert all == m + (l + multiset{}) + (staged + buf) + queued;
  }

  lemma AddBoth(a: multiset<Row>, b: multiset<Row>, c: multiset<Row>, d: multiset<Row>, more: multiset<Row>)
    requires a + b == c + d
    ensures (a + more) + b == c + (d + more)
  {
    assert (a + more) + b == (a + b) + more && c + (d + more) == (c + d) + more;
  }

  lemma MergeCounters(s: Service, o: Outcome)
    requires s.buf != [] && o.fate.Merged?
    ensures Flush(s, o).metrics.inserted
            == s.metrics.inserted + if o.fate.replied then Gained(s.db, s.buf, o.fate.scan) else 0
  {
    hide Distinct;
    assert Inserted(EnsureForStaging(CopyIn(s.db, s.buf)), o.fate.scan) == Inserted(CopyIn(s.db, s.buf), o.fate.scan);
    hide Inserted;
  }

  lemma FlushCounts(w: World, o: Outcome)
    requires Counted(w)
    ensures Counted(FlushWorld(w, true, o)) && FlushWorld(w, true, o).service.buf == []
  {
    FlushFacts(w.service, o);
    if w.service.buf != [] && o.fate.Merged? { MergeCounters(w.service, o); }
    hide Flush, Gained, Taken;
  }

  lemma FlushConserves(start: Db, w: World, o: Outcome)
    requires Conserved(start, w)
    ensures Conserved(start, FlushWorld(w, true, o))
  {
    var s, s', l := w.service, Flush(w.service, o), w.ledger;
    FlushFacts(s, o);
    assert multiset(s.db.staging + s.buf) == multiset(s.db.staging) + multiset(s.buf);
    assert multiset(Waiting(s)) == multiset(s.buf) + multiset(Flat(s.queue));
    assert Waiting(s') == Flat(s.queue);
    hide Flush, Inserted, Waiting, Flat, Gained;
    Sums(l.merged, l.lost, multiset(s.db.staging), multiset(s.buf), multiset(Flat(s.queue)));
    if s.buf == [] {
      assert multiset(Waiting(s)) == multiset(Flat(s.queue));
    }
  }

  lemma EnqueueWaits(cfg: Config, s: Service, batch: seq<Row>)
    requires |s.queue| < cfg.capacity
    ensures Waiting(TryEnqueue(cfg, s, batch)) == Waiting(s) + batch
  {
    FlatSnoc(s.queue, batch);
    assert s.buf + (Flat(s.queue) + batch) == Waiting(s) + batch;
  }

  lemma EnqueueConserves(cfg: Config, start: Db, w: World, batch: seq<Row>)
    requires Conserved(start, w) && Counted(w)
    ensures var w' := Step(cfg, w, Enqueue(batch));
            Conserved(start, w') && Counted(w') && w'.service.buf == w.service.buf
  {
    var s, l := w.service, w.ledger;
    if |s.queue| < cfg.capacity {
      EnqueueWaits(cfg, s, batch);
      hide Waiting;
      assert multiset(l.accepted + batch) == multiset(l.accepted) + multiset(batch);
      assert multiset(Waiting(s) + batch) == multiset(Waiting(s)) + multiset(batch);
      AddBoth(multiset(l.accepted), multiset(start.staging), l.merged + l.lost + multiset(s.db.staging),
              multiset(Waiting(s)), multiset(batch));
    }
  }

  lemma StepConserves(cfg: Config, start: Db, w: World, e: Event)
    requires Conserved(start, w) && Counted(w) && BufferBounded(cfg, w.service)
    ensures var w' := Step(cfg, w, e); Conserved(start, w') && Counted(w') && BufferBounded(cfg, w'.service)
  {
    var s := w.service;
    match e
    case Enqueue(batch) => EnqueueConserves(cfg, start, w, batch);
    case Recv(o) =>
      if s.queue != [] {
        MovedWaits(s);
        var w1 := World(Moved(s), w.ledger);
        hide Waiting, Flush, BookFlush;
        assert Conserved(start, w1) && Counted(w1);
        if |w1.service.buf| >= cfg.flushBatchSize { FlushConserves(start, w1, o); FlushCounts(w1, o); }
      }
    case Tick(o) =>
      FlushConserves(start, w, o);
      FlushCounts(w, o);
    case Purge(day) =>
  }

  lemma {:induction false} RunConserves(cfg: Config, start: Db, w: World, es: seq<Event>)
    requires Conserved(start, w) && Counted(w) && BufferBounded(cfg, w.service)
    ensures var w' := Run(cfg, w, es); Conserved(start, w') && Counted(w') && BufferBounded(cfg, w'.service)
    decreases |es|
  {
    if es != [] {
      hide Conserved, Counted, BufferBounded, Step;
      StepConserves(cfg, start, w, es[0]);
      RunConserves(cfg, start, Step(cfg, w, es[0]), es[1..]);
    }
  }

  /** Over every run: each record is in exactly one place, and the counters count them. */
  lemma Conservation(cfg: Config, start: Db, es: seq<Event>)
    ensures var w := Run(cfg, Fresh(start), es);
            && Conserved(start, w) && Counted(w) && BufferBounded(cfg, w.service)
  {
    assert Waiting(Start(start)) == [];
    RunConserves(cfg, start, Fresh(start), es);
  }

  // ---------------------------------------------------------------- what the counters say

  predicate NoPurge(es: seq<Event>) {
    forall i :: 0 <= i < |es| ==> !es[i].Purge?
  }

  function KeysOf(bag: multiset<Row>): set<Key> {
    set r | r in bag :: r.Key()
  }

  /** The stored keys are those merged, and `count` of them are new. */
  ghost predicate Adds(before: map<Key, Row>, merged: multiset<Row>, count: nat, after: map<Key, Row>) {
    && |after| == |before| + count && count <= |merged|
    && after.Keys == before.Keys + KeysOf(merged)
  }

  ghost predicate Tallied(start: Db, w: World) {
    Adds(start.events, w.ledger.merged, w.ledger.added, w.service.db.events)
  }

  lemma AddMore(before: map<Key, Row>, merged: multiset<Row>, count: nat, between: map<Key, Row>,
                more: multiset<Row>, n: nat, after: map<Key, Row>)
    requires Adds(before, merged, count, between) && Adds(between, more, n, after)
    ensures Adds(before, merged + more, count + n, after)
  {
    assert KeysOf(merged + more) == KeysOf(merged) + KeysOf(more);
  }

  lemma {:induction false} KeysCount(rows: seq<Row>)
    ensures |Keys(rows)| <= |rows|
  {
    if rows != [] {
      var rest, last := rows[..|rows| - 1], rows[|rows| - 1];
      KeysCount(rest);
      assert rows == rest + [last] && Keys(rows) == Keys(rest) + {last.Key()};
    }
  }

  lemma InsertedCount(db: Db, scan: seq<Row>)
    requires IsScan(db, scan)
    ensures |Inserted(db, scan)| <= |db.staging|
  {
    MergeExtends(db, scan);
    SubsetSize(Inserted(db, scan), Keys(db.staging));
    KeysCount(db.staging);
  }

  lemma BagKeys(rows: seq<Row>)
    ensures KeysOf(multiset(rows)) == Keys(rows)
  {
    assert forall r :: r in rows <==> r in multiset(rows);
  }

  lemma MergeAdds(db: Db, scan: seq<Row>)
    requires IsScan(db, scan)
    ensures Adds(db.events, multiset(db.staging), |Inserted(db, scan)|, Merge(db, scan).events)
  {
    MergeExtends(db, scan);
    InsertedCount(db, scan);
    BagKeys(db.staging);
    assert |multiset(db.staging)| == |db.staging|;
    hide Inserted, Distinct, IsScan, Keys, KeysOf, Merge;
  }

  lemma FlushAdds(s: Service, o: Outcome)
    requires s.buf != [] && o.fate.Merged? && LegalFate(s.db, s.buf, o.fate)
    ensures Adds(s.db.events, Taken(s.db, s.buf), Gained(s.db, s.buf, o.fate.scan), Flush(s, o).db.events)
  {
    MergeAdds(CopyIn(s.db, s.buf), o.fate.scan);
    hide Distinct, Inserted, Adds;
  }

  lemma FlushTallies(start: Db, w: World, o: Outcome)
    requires Tallied(start, w) && LegalFate(w.service.db, w.service.buf, o.fate)
    ensures Tallied(start, FlushWorld(w, true, o))
  {
    var s, l := w.service, w.ledger;
    if s.buf != [] && o.fate.Merged? {
      FlushAdds(s, o);
      hide Taken, Gained, Flush, Adds, LegalFate;
      AddMore(start.events, l.merged, l.added, s.db.events, Taken(s.db, s.buf), Gained(s.db, s.buf, o.fate.scan),
              Flush(s, o).db.events);
    } else {
      FlushFacts(s, o);
      hide Flush, Adds;
    }
  }

  lemma StepTallies(cfg: Config, start: Db, w: World, e: Event)
    requires Legal(w, e) && !e.Purge? && Tallied(start, w)
    ensures Tallied(start, Step(cfg, w, e))
  {
    hide BookFlush, Flush, LegalFate;
    var s := w.service;
    match e
    case Recv(o) =>
      if s.queue != [] && |Moved(s).buf| >= cfg.flushBatchSize {
        FlushTallies(start, World(Moved(s), w.ledger), o);
      }
    case Tick(o) => FlushTallies(start, w, o);
    case Enqueue(_) =>
  }

  lemma {:induction false} RunTallies(cfg: Config, start: Db, w: World, es: seq<Event>)
    requires LegalRun(cfg, w, es) && NoPurge(es) && Tallied(start, w)
    ensures Tallied(start, Run(cfg, w, es))
    decreases |es|
  {
    if es != [] {
      hide Step, Tallied, Legal;
      StepTallies(cfg, start, w, es[0]);
      RunTallies(cfg, start, Step(cfg, w, es[0]), es[1..]);
    }
  }

  /** The records that merges took without inserting them. */
  function Duplicates(l: Ledger): int {
    |l.merged| - l.added
  }

  lemma StepAddsNoMore(cfg: Config, w: World, e: Event)
    requires Legal(w, e) && w.ledger.added <= |w.ledger.merged|
    ensures Step(cfg, w, e).ledger.added <= |Step(cfg, w, e).ledger.merged|
  {
    var s := w.service;
    match e
    case Recv(o) =>
      if s.queue != [] { FlushAddsNoMore(World(Moved(s), w.ledger), o); }
      hide BookFlush, Flush;
    case Tick(o) =>
      FlushAddsNoMore(w, o);
      hide BookFlush, Flush;
    case _ =>
  }

  lemma FlushAddsNoMore(w: World, o: Outcome)
    requires LegalFate(w.service.db, w.service.buf, o.fate) && w.ledger.added <= |w.ledger.merged|
    ensures var l := BookFlush(w.ledger, w.service.db, w.service.buf, o); l.added <= |l.merged|
  {
    var s := w.service;
    if o.fate.Merged? {
      InsertedCount(CopyIn(s.db, s.buf), o.fate.scan);
      assert |Taken(s.db, s.buf)| == |s.db.staging + s.buf|;
      hide Inserted, IsScan;
    }
  }

  lemma {:induction false} RunAddsNoMore(cfg: Config, w: World, es: seq<Event>)
    requires LegalRun(cfg, w, es) && w.ledger.added <= |w.ledger.merged|
    ensures Run(cfg, w, es).ledger.added <= |Run(cfg, w, es).ledger.merged|
    decreases |es|
  {
    if es != [] {
      hide Step, Legal;
      StepAddsNoMore(cfg, w, es[0]);
      RunAddsNoMore(cfg, Step(cfg, w, es[0]), es[1..]);
    }
  }

  /** What else the statistic counts: what was lost, inserted without a reply, staged or waiting. */
  function Others(w: World): nat {
    w.ledger.silent + |w.ledger.lost| + |w.service.db.staging| + |Waiting(w.service)|
  }

  /**
   * What the statistic named deduplicated_total really counts, over all runs: the duplicates and the others, less
   * the rows that were in staging at the start. It is right exactly when these make up for each other.
   */
  lemma DeduplicatedIsExactly(cfg: Config, start: Db, es: seq<Event>)
    requires LegalRun(cfg, Fresh(start), es)
    ensures var w := Run(cfg, Fresh(start), es);
            var (d, others, residue) := (Duplicates(w.ledger), Others(w), |start.staging|);
            && d >= 0
            && w.service.metrics.Deduplicated() == Max(d + others - residue, 0)
            && (w.service.metrics.Deduplicated() == d <==> others == residue || (d == 0 && others <= residue))
  {
    Conservation(cfg, start, es);
    RunAddsNoMore(cfg, Fresh(start), es);
    var w := Run(cfg, Fresh(start), es);
    hide Run, Waiting, LegalRun, BufferBounded;
    assert |multiset(w.ledger.accepted) + multiset(start.staging)| == |w.ledger.accepted| + |start.staging|;
  }

  /** Without a purge the rows inserted are the growth of the table, and the stored keys are those merged. */
  lemma TableGrows(cfg: Config, start: Db, es: seq<Event>)
    requires LegalRun(cfg, Fresh(start), es) && NoPurge(es)
    ensures var w := Run(cfg, Fresh(start), es);
            && w.ledger.added == |w.service.db.events| - |start.events|
            && w.service.db.events.Keys == start.events.Keys + KeysOf(w.ledger.merged)
  {
    RunTallies(cfg, start, Fresh(start), es);
  }

  /** A record that merely waits in the channel is reported as a duplicate. */
  lemma WaitingCountsAsDuplicate(cfg: Config, row: Row)
    requires cfg.capacity >= 1
    ensures var w := Run(cfg, Fresh(EmptyDb), [Enqueue([row])]);
            w.service.metrics.Deduplicated() == 1 && Duplicates(w.ledger) == 0
  {
    assert Run(cfg, Fresh(EmptyDb), [Enqueue([row])]) == Step(cfg, Fresh(EmptyDb), Enqueue([row]));
  }

  /** A database that already stores a row which is still in staging, as a drain leaves it whose reply was lost. */
  function StillStaged(row: Row): Db {
    Db([row], map[row.Key() := row], {row.Day()})
  }

  lemma NothingNew(row: Row)
    ensures var copied := CopyIn(StillStaged(row), [row]);
            copied.staging == [row, row] && IsScan(copied, [row, row]) && Inserted(copied, [row, row]) == {}
  {
    assert [row] + [row] == [row, row];
    DistinctPicksEarliest([row, row]);
    hide Distinct;
  }

  lemma FlushOfStored(row: Row, s: Service)
    requires s.db == StillStaged(row) && s.buf == [row] && s.queue == [] && s.metrics == NoMetrics.(received := 1)
    ensures var (o, l) := (Outcome(Merged([row, row], true), false), Ledger([row], 0, multiset{}, multiset{}, 0, 0));
            var w := FlushWorld(World(s, l), true, o);
            && LegalFate(s.db, s.buf, o.fate) && w.ledger == l.(merged := multiset{row, row})
            && w.service.metrics == NoMetrics.(received := 1, flushes := 1)
            && w.service.db.staging == [] && w.service.buf == [] && w.service.queue == []
  {
    NothingNew(row);
    var copied := CopyIn(s.db, s.buf);
    assert Inserted(EnsureForStaging(copied), [row, row]) == Inserted(copied, [row, row]);
    assert copied.staging == [row, row] && Taken(s.db, s.buf) == multiset{row, row};
    hide Inserted, Distinct, IsScan, StillStaged, Taken;
  }

  /** Such a row hides a duplicate: two records were merged in vain, and the statistic says one. */
  lemma ResidueHidesDuplicate(row: Row)
    ensures var es := [Enqueue([row]), Recv(Outcome(Merged([row, row], true), false))];
            var w := Run(Config(1, 1), Fresh(StillStaged(row)), es);
            && LegalRun(Config(1, 1), Fresh(StillStaged(row)), es) && Others(w) == 0
            && w.service.metrics.Deduplicated() == 1 && Duplicates(w.ledger) == 2
  {
    var (cfg, start, o) := (Config(1, 1), StillStaged(row), Outcome(Merged([row, row], true), false));
    var w1 := World(Start(start).(queue := [[row]], metrics := NoMetrics.(received := 1)),
                    Fresh(start).ledger.(accepted := [row]));
    hide StillStaged;
    assert [] + [[row]] == [[row]] && [] + [row] == [row] && |[row]| == 1;
    assert Step(cfg, Fresh(start), Enqueue([row])) == w1;
    var moved := Moved(w1.service);
    assert moved.buf == [row] && moved.queue == [];
    FlushOfStored(row, moved);
    assert Legal(w1, Recv(o));
    hide FlushWorld, LegalFate, Legal;
    assert Step(cfg, w1, Recv(o)) == FlushWorld(World(moved, w1.ledger), true, o) by { assert Max(1, 1) == 1; }
    assert Legal(Fresh(start), Enqueue([row])) by { AlwaysLegal(Fresh(start), [row]); }
    hide Step;
    TwoEvents(cfg, Fresh(start), Enqueue([row]), Recv(o));
    hide Run, LegalRun;
  }

  lemma AlwaysLegal(w: World, batch: seq<Row>)
    ensures Legal(w, Enqueue(batch))
  {
  }

  lemma TwoEvents(cfg: Config, w: World, a: Event, b: Event)
    requires Legal(w, a) && Legal(Step(cfg, w, a), b)
    ensures LegalRun(cfg, w, [a, b]) && Run(cfg, w, [a, b]) == Step(cfg, Step(cfg, w, a), b)
  {
    hide Legal, Step;
    var w1 := Step(cfg, w, a);
    assert [a, b][1..] == [b] && [b][1..] == [];
    assert LegalRun(cfg, w1, [b]) && Run(cfg, w1, [b]) == Step(cfg, w1, b);
  }

  // ---------------------------------------------------------------- clean shutdown

  predicate NothingFails(es: seq<Event>) {
    forall i :: 0 <= i < |es| ==>
      (es[i].Recv? ==> !es[i].o.Fails()) && (es[i].Tick? ==> !es[i].o.Fails())
  }

  /** No flush fails, and no purge drops `day` or a later one. */
  predicate Clean(es: seq<Event>, day: int) {
    NothingFails(es) && forall i :: 0 <= i < |es| && es[i].Purge? ==> es[i].day <= day
  }

  /** What the batcher does once it is told to stop. */
  function DrainEvents(n: nat, os: seq<Outcome>): seq<Event>
    requires |os| > n
  {
    if n == 0 then [Tick(os[0])] else [Recv(os[0])] + DrainEvents(n - 1, os[1..])
  }

  lemma {:induction false} DrainIsRun(cfg: Config, w: World, os: seq<Outcome>)
    requires LegalDrain(cfg, w.service, os)
    ensures LegalRun(cfg, w, DrainEvents(|w.service.queue|, os))
    ensures Run(cfg, w, DrainEvents(|w.service.queue|, os)).service == Drain(cfg, w.service, os)
    decreases |w.service.queue|
  {
    hide Flush;
    var s, es := w.service, DrainEvents(|w.service.queue|, os);
    if s.queue == [] {
      assert es[1..] == [];
    } else {
      FlushKeepsQueue(Moved(s), os[0]);
      StepIsReceive(cfg, w, os[0]);
      assert es[1..] == DrainEvents(|s.queue| - 1, os[1..]);
      hide Step, BookFlush;
      DrainIsRun(cfg, Step(cfg, w, es[0]), os[1..]);
    }
  }

  /** The records of each key were received in the order in which they went through the channel. */
  ghost predicate Ascending(rows: seq<Row>) {
    forall i, j :: 0 <= i < j < |rows| && rows[i].Key() == rows[j].Key() ==> rows[i].receivedAt <= rows[j].receivedAt
  }

  /**
   * From `day` on everything among `done` is stored and old rows are as they were; whatever is stored is an old
   * row or one among `done`.
   */
  ghost predicate Written(start: Db, db: Db, done: seq<Row>, day: int) {
    && db.events.Keys <= start.events.Keys + Keys(done)
    && (forall k :: k in start.events.Keys + Keys(done) && DayOf(k.timestamp) >= day ==> k in db.events)
    && (forall k :: k in start.events && DayOf(k.timestamp) >= day ==> db.events[k] == start.events[k])
    && forall k :: k in db.events ==>
         (k in start.events && db.events[k] == start.events[k]) || (db.events[k] in done && db.events[k].Key() == k)
  }

  /** No record of a new key was received before the stored one. */
  ghost predicate Earliest(start: Db, db: Db, done: seq<Row>, day: int) {
    forall k, r :: k in db.events && k !in start.events && DayOf(k.timestamp) >= day && r in done && r.Key() == k ==>
      db.events[k].receivedAt <= r.receivedAt
  }

  lemma DoneKeys(done: seq<Row>, buf: seq<Row>)
    ensures Keys(done + buf) == Keys(done) + Keys(buf)
    ensures forall r :: r in done ==> r.Key() in Keys(done)
  {
  }

  lemma ExtendsWrites(start: Db, db: Db, done: seq<Row>, buf: seq<Row>, after: Db, day: int)
    requires Written(start, db, done, day)
    requires Extends(db.events, buf, after.events)
    ensures Written(start, after, done + buf, day)
  {
    DoneKeys(done, buf);
    hide Keys, DayOf;
    forall k | k in after.events
      ensures (k in start.events && after.events[k] == start.events[k])
           || (after.events[k] in done + buf && after.events[k].Key() == k)
    {
      if k in db.events {
        assert after.events[k] == db.events[k];
      }
    }
  }

  lemma ExtendsEarliest(start: Db, db: Db, done: seq<Row>, buf: seq<Row>, after: Db, day: int)
    requires Written(start, db, done, day) && Earliest(start, db, done, day) && Ascending(done + buf)
    requires Extends(db.events, buf, after.events)
    ensures Earliest(start, after, done + buf, day)
  {
    DoneKeys(done, buf);
    hide Keys, DayOf;
    forall k, r | k in after.events && k !in start.events && DayOf(k.timestamp) >= day && r in done + buf
      && r.Key() == k
      ensures after.events[k].receivedAt <= r.receivedAt
    {
      if k in db.events && r in buf {
        FirstComesFirst(done, buf, db.events[k], r);
      }
    }
  }

  lemma PurgeWrites(start: Db, db: Db, done: seq<Row>, d: int, day: int)
    requires Written(start, db, done, day) && d <= day
    ensures Written(start, DropBefore(db, d), done, day)
    ensures Earliest(start, db, done, day) ==> Earliest(start, DropBefore(db, d), done, day)
  {
    hide Keys, DayOf;
  }

  lemma WriteMore(start: Db, db: Db, done: seq<Row>, buf: seq<Row>, scan: seq<Row>, day: int)
    requires Written(start, db, done, day) && IsScan(CopyIn(db, buf), scan)
    ensures var (after, more) := (Merge(EnsureForStaging(CopyIn(db, buf)), scan), db.staging + buf);
            && after.staging == [] && Written(start, after, done + more, day)
            && (Earliest(start, db, done, day) && Ascending(done + more) ==> Earliest(start, after, done + more, day))
  {
    var ensured, more := EnsureForStaging(CopyIn(db, buf)), db.staging + buf;
    assert ensured.staging == more && ensured.events == db.events;
    hide Written, Earliest, Distinct, Ascending, Inserted, Keys, Extends;
    MergeExtends(ensured, scan);
    ExtendsWrites(start, db, done, more, Merge(ensured, scan), day);
    if Earliest(start, db, done, day) && Ascending(done + more) {
      ExtendsEarliest(start, db, done, more, Merge(ensured, scan), day);
    }
  }

  lemma FirstComesFirst(done: seq<Row>, buf: seq<Row>, first: Row, r: Row)
    requires Ascending(done + buf) && first in done && r in buf && first.Key() == r.Key()
    ensures first.receivedAt <= r.receivedAt
  {
    var i :| 0 <= i < |done| && done[i] == first;
    var j :| 0 <= j < |buf| && buf[j] == r;
    assert (done + buf)[i] == first && (done + buf)[|done| + j] == r;
  }

  lemma AscendingPrefix(rows: seq<Row>, more: seq<Row>)
    requires Ascending(rows + more)
    ensures Ascending(rows)
  {
    assert forall i :: 0 <= i < |rows| ==> (rows + more)[i] == rows[i];
  }

  /** The rows that merges have taken once the records `done` were flushed; the first also takes what it finds. */
  function Carried(start: Db, done: seq<Row>): seq<Row> {
    if done == [] then [] else start.staging + done
  }

  /** What is left in staging by then. */
  function LeftOver(start: Db, done: seq<Row>): seq<Row> {
    if done == [] then start.staging else []
  }

  /** `done` went to the database, and the rest waits. */
  ghost predicate WrittenSoFar(start: Db, w: World, done: seq<Row>, day: int) {
    && w.ledger.accepted == done + Waiting(w.service)
    && w.service.db.staging == LeftOver(start, done)
    && Written(start, w.service.db, Carried(start, done), day)
    && (Ascending(start.staging + w.ledger.accepted) ==> Earliest(start, w.service.db, Carried(start, done), day))
  }

  lemma FlushMerges(s: Service, o: Outcome)
    requires s.buf != [] && !o.Fails()
    ensures Flush(s, o).db == Merge(EnsureForStaging(CopyIn(s.db, s.buf)), o.fate.scan)
  {
    hide Merge, Inserted;
  }

  lemma FlushWaits(s: Service, o: Outcome)
    ensures Waiting(s) == s.buf + Waiting(Flush(s, o))
    ensures s.buf == [] ==> Flush(s, o) == s
  {
    FlushFacts(s, o);
    assert [] + Flat(s.queue) == Flat(s.queue);
    hide Flat, FlushInner;
  }

  lemma FlushWrites(start: Db, w: World, o: Outcome, done: seq<Row>, day: int)
    requires WrittenSoFar(start, w, done, day)
    requires LegalFate(w.service.db, w.service.buf, o.fate) && !o.Fails()
    ensures WrittenSoFar(start, FlushWorld(w, true, o), done + w.service.buf, day)
  {
    var s, all := w.service, w.ledger.accepted;
    FlushWaits(s, o);
    KeepsAccepted(w.ledger, s.db, s.buf, o);
    hide Waiting, Flush, BookFlush, Written, Earliest, Ascending, Merge, IsScan;
    var rest, next := Waiting(Flush(s, o)), done + s.buf;
    assert all == next + rest;
    if s.buf != [] {
      FlushMerges(s, o);
      CarryOn(start, done, s.buf);
      if Ascending(start.staging + all) {
        assert start.staging + all == Carried(start, next) + rest;
        AscendingPrefix(Carried(start, next), rest);
      }
      WriteMore(start, s.db, Carried(start, done), s.buf, o.fate.scan, day);
    } else {
      assert next == done;
    }
  }

  lemma CarryOn(start: Db, done: seq<Row>, buf: seq<Row>)
    requires buf != []
    ensures Carried(start, done + buf) == Carried(start, done) + (LeftOver(start, done) + buf)
    ensures Carried(start, done + buf) == start.staging + (done + buf) && LeftOver(start, done + buf) == []
  {
    if done == [] {
      assert done + buf == buf && [] + (start.staging + buf) == start.staging + buf;
    } else {
      assert start.staging + done + ([] + buf) == start.staging + (done + buf);
    }
  }

  lemma KeepsAccepted(l: Ledger, db: Db, buf: seq<Row>, o: Outcome)
    ensures BookFlush(l, db, buf, o).accepted == l.accepted
  {
    hide Taken, Gained;
  }

  lemma EnqueueWrites(cfg: Config, start: Db, w: World, batch: seq<Row>, done: seq<Row>, day: int)
    requires WrittenSoFar(start, w, done, day)
    ensures WrittenSoFar(start, Step(cfg, w, Enqueue(batch)), done, day)
  {
    var s, all := w.service, w.ledger.accepted;
    if |s.queue| < cfg.capacity {
      EnqueueWaits(cfg, s, batch);
      hide Waiting, Written, Earliest, Ascending;
      assert all + batch == done + (Waiting(s) + batch);
      if Ascending(start.staging + (all + batch)) {
        assert start.staging + (all + batch) == start.staging + all + batch;
        AscendingPrefix(start.staging + all, batch);
      }
    }
  }

  lemma StepWrites(cfg: Config, start: Db, w: World, e: Event, done: seq<Row>, day: int) returns (done': seq<Row>)
    requires Legal(w, e) && Clean([e], day) && WrittenSoFar(start, w, done, day)
    ensures WrittenSoFar(start, Step(cfg, w, e), done', day)
  {
    hide Flush, BookFlush, Written, Earliest, Ascending;
    var s := w.service;
    done' := done;
    assert [e][0] == e;
    match e
    case Enqueue(batch) => EnqueueWrites(cfg, start, w, batch, done, day);
    case Recv(o) =>
      if s.queue != [] {
        MovedWaits(s);
        var w1 := World(Moved(s), w.ledger);
        assert WrittenSoFar(start, w1, done, day);
        if |w1.service.buf| >= cfg.flushBatchSize {
          FlushWrites(start, w1, o, done, day);
          done' := done + w1.service.buf;
        }
      }
    case Tick(o) =>
      FlushWrites(start, w, o, done, day);
      done' := done + s.buf;
    case Purge(d) => PurgeWrites(start, s.db, Carried(start, done), d, day);
  }

  lemma CleanSplit(es: seq<Event>, day: int)
    requires Clean(es, day) && es != []
    ensures Clean([es[0]], day) && Clean(es[1..], day)
  {
  }

  lemma {:induction false} RunWrites(cfg: Config, start: Db, w: World, es: seq<Event>, done: seq<Row>, day: int)
    returns (done': seq<Row>)
    requires LegalRun(cfg, w, es) && Clean(es, day) && WrittenSoFar(start, w, done, day)
    ensures WrittenSoFar(start, Run(cfg, w, es), done', day)
    decreases |es|
  {
    done' := done;
    if es != [] {
      CleanSplit(es, day);
      hide Step, Legal, WrittenSoFar, Clean;
      done' := StepWrites(cfg, start, w, es[0], done, day);
      done' := RunWrites(cfg, start, Step(cfg, w, es[0]), es[1..], done', day);
    }
  }

  lemma DrainWrites(cfg: Config, start: Db, w: World, os: seq<Outcome>, done: seq<Row>, day: int)
    requires WrittenSoFar(start, w, done, day)
    requires LegalDrain(cfg, w.service, os) && forall i :: 0 <= i < |os| ==> !os[i].Fails()
    ensures var (db, all) := (Drain(cfg, w.service, os).db, w.ledger.accepted);
            && db.staging == LeftOver(start, all) && Written(start, db, Carried(start, all), day)
            && (Ascending(start.staging + all) ==> Earliest(start, db, Carried(start, all), day))
  {
    var stop := DrainEvents(|w.service.queue|, os);
    DrainIsRun(cfg, w, os);
    DrainAccepts(cfg, w, |w.service.queue|, os);
    DrainIsClean(|w.service.queue|, os, day);
    DrainEmpties(cfg, w.service, os);
    hide Written, Earliest, Run, LegalRun, Drain, LegalDrain, Ascending, DrainEvents, Waiting, Carried, LeftOver;
    var all := RunWrites(cfg, start, w, stop, done, day);
    assert all + [] == all;
  }

  lemma StopWrites(cfg: Config, start: Db, es: seq<Event>, os: seq<Outcome>, day: int)
    requires LegalRun(cfg, Fresh(start), es) && Clean(es, day)
    requires var w := Run(cfg, Fresh(start), es);
             LegalDrain(cfg, w.service, os) && forall i :: 0 <= i < |os| ==> !os[i].Fails()
    ensures var all := Run(cfg, Fresh(start), es).ledger.accepted;
            var db := Drain(cfg, Run(cfg, Fresh(start), es).service, os).db;
            && db.staging == LeftOver(start, all) && Written(start, db, Carried(start, all), day)
            && (Ascending(start.staging + all) ==> Earliest(start, db, Carried(start, all), day))
  {
    var w := Run(cfg, Fresh(start), es);
    assert Written(start, start, [], day) && Earliest(start, start, [], day) && Waiting(Start(start)) == [];
    hide Written, Earliest, Run, LegalRun, Drain, LegalDrain, Ascending;
    var done := RunWrites(cfg, start, Fresh(start), es, [], day);
    DrainWrites(cfg, start, w, os, done, day);
  }

  /**
   * Clean shutdown: when no flush failed, everything enqueued is stored except what a purge was there to drop,
   * however the records were split into flushes and in whatever order a merge scans equal ones. So is what the
   * start left in staging, unless nothing came to flush: then it is still there.
   */
  lemma CleanShutdown(cfg: Config, start: Db, es: seq<Event>, os: seq<Outcome>, day: int)
    requires LegalRun(cfg, Fresh(start), es) && Clean(es, day)
    requires var w := Run(cfg, Fresh(start), es);
             LegalDrain(cfg, w.service, os) && forall i :: 0 <= i < |os| ==> !os[i].Fails()
    ensures var all := Run(cfg, Fresh(start), es).ledger.accepted;
            var db := Drain(cfg, Run(cfg, Fresh(start), es).service, os).db;
            if all == [] then db.staging == start.staging && Written(start, db, [], day)
            else db.staging == [] && Written(start, db, start.staging + all, day)
  {
    StopWrites(cfg, start, es, os, day);
  }

  /** Without a purge the stored keys are exactly the old ones and those taken, and no old row has changed. */
  lemma UnpurgedShutdown(cfg: Config, start: Db, es: seq<Event>, os: seq<Outcome>)
    requires LegalRun(cfg, Fresh(start), es) && NoPurge(es) && NothingFails(es)
    requires var w := Run(cfg, Fresh(start), es);
             LegalDrain(cfg, w.service, os) && forall i :: 0 <= i < |os| ==> !os[i].Fails()
    ensures var all := Run(cfg, Fresh(start), es).ledger.accepted;
            var db := Drain(cfg, Run(cfg, Fresh(start), es).service, os).db;
            && db.events.Keys == start.events.Keys + Keys(if all == [] then [] else start.staging + all)
            && forall k :: k in start.events ==> db.events[k] == start.events[k]
  {
    var all := Run(cfg, Fresh(start), es).ledger.accepted;
    var db := Drain(cfg, Run(cfg, Fresh(start), es).service, os).db;
    assert forall day :: Clean(es, day);
    StopWrites(cfg, start, es, os, 0);
    hide Run, LegalRun, Drain, LegalDrain, Clean, Keys, DayOf;
    forall k | k in start.events.Keys + Keys(Carried(start, all))
      ensures k in db.events && (k in start.events ==> db.events[k] == start.events[k])
    {
      StopWrites(cfg, start, es, os, DayOf(k.timestamp));
    }
  }

  /**
   * When the records of each key went through the channel in the order they were received, after those in staging,
   * the stored one is an earliest one, whatever the split.
   */
  lemma EarliestWins(cfg: Config, start: Db, es: seq<Event>, os: seq<Outcome>, day: int)
    requires LegalRun(cfg, Fresh(start), es) && Clean(es, day)
    requires var w := Run(cfg, Fresh(start), es);
             && LegalDrain(cfg, w.service, os) && (forall i :: 0 <= i < |os| ==> !os[i].Fails())
             && Ascending(start.staging + w.ledger.accepted)
    ensures var all := Run(cfg, Fresh(start), es).ledger.accepted;
            var db := Drain(cfg, Run(cfg, Fresh(start), es).service, os).db;
            Earliest(start, db, Carried(start, all), day)
  {
    StopWrites(cfg, start, es, os, day);
  }

  lemma OnlyEnqueueAccepts(cfg: Config, w: World, e: Event)
    requires !e.Enqueue?
    ensures Step(cfg, w, e).ledger.accepted == w.ledger.accepted
  {
    hide Flush, Taken, Gained;
  }

  lemma {:induction false} DrainAccepts(cfg: Config, w: World, n: nat, os: seq<Outcome>)
    requires |os| > n
    ensures Run(cfg, w, DrainEvents(n, os)).ledger.accepted == w.ledger.accepted
    decreases n
  {
    if n == 0 {
      OnlyEnqueueAccepts(cfg, w, Tick(os[0]));
      hide Step;
      assert Run(cfg, w, [Tick(os[0])]) == Step(cfg, w, Tick(os[0]));
    } else {
      OnlyEnqueueAccepts(cfg, w, Recv(os[0]));
      hide Step;
      var rest := DrainEvents(n - 1, os[1..]);
      assert ([Recv(os[0])] + rest)[1..] == rest;
      DrainAccepts(cfg, Step(cfg, w, Recv(os[0])), n - 1, os[1..]);
    }
  }

  lemma {:induction false} DrainIsClean(n: nat, os: seq<Outcome>, day: int)
    requires |os| > n && forall i :: 0 <= i < |os| ==> !os[i].Fails()
    ensures Clean(DrainEvents(n, os), day)
    decreases n
  {
    if n > 0 {
      var rest := DrainEvents(n - 1, os[1..]);
      DrainIsClean(n - 1, os[1..], day);
      hide DrainEvents;
      assert forall i :: 0 < i < 1 + |rest| ==> ([Recv(os[0])] + rest)[i] == rest[i - 1];
    }
  }

  lemma {:induction false} DrainEmpties(cfg: Config, s: Service, os: seq<Outcome>)
    requires |os| > |s.queue|
    ensures Waiting(Drain(cfg, s, os)) == []
    decreases |s.queue|
  {
    if s.queue == [] {
      FlushKeepsQueue(s, os[0]);
    } else {
      FlushKeepsQueue(Moved(s), os[0]);
      DrainEmpties(cfg, Receive(cfg, s, os[0]), os[1..]);
    }
  }
}
