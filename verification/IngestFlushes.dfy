/** When the batcher flushes, how often it says it did, and what every flush and purge keeps of the tables. */
module IngestFlushes {
  import opened Common
  import opened Store
  import opened Ingest
  import opened IngestRuns

  /** The event flushes records: a batch that fills the buffer to the flush size, or a tick that finds any. */
  ghost predicate Flushes(cfg: Config, s: Service, e: IngestRuns.Event) {
    match e
    case Recv(_) =>
      s.queue != [] && |s.buf| + |s.queue[0]| >= cfg.flushBatchSize && |s.buf| + |s.queue[0]| > 0
    case Tick(_) => |s.buf| > 0
    case _ => false
  }

  ghost predicate Succeeds(e: IngestRuns.Event) {
    match e
    case Recv(o) => !o.Fails()
    case Tick(o) => !o.Fails()
    case _ => false
  }

  /** How many events of the run flushed, with this success. */
  ghost function FlushCount(cfg: Config, w: World, es: seq<IngestRuns.Event>, success: bool): nat
    decreases |es|
  {
    if es == [] then 0
    else (if Flushes(cfg, w.service, es[0]) && Succeeds(es[0]) == success then 1 else 0)
         + FlushCount(cfg, Step(cfg, w, es[0]), es[1..], success)
  }

  /** A flush empties the buffer and adds to one counter; otherwise what is received is buffered, in order. */
  lemma StepFlushes(cfg: Config, w: World, e: IngestRuns.Event)
    ensures var (s, s') := (w.service, Step(cfg, w, e).service);
            var (m, m') := (s.metrics, s'.metrics);
            && m'.flushes == m.flushes + (if Flushes(cfg, s, e) && Succeeds(e) then 1 else 0)
            && m'.failures == m.failures + (if Flushes(cfg, s, e) && !Succeeds(e) then 1 else 0)
            && (Flushes(cfg, s, e) ==> s'.buf == [])
            && (!Flushes(cfg, s, e) ==>
                  && (e.Recv? && s.queue != [] ==> s'.buf == s.buf + s.queue[0] && s'.queue == s.queue[1..])
                  && (!e.Recv? || s.queue == [] ==> s'.buf == s.buf)
                  && s'.db == if e.Purge? then DropBefore(s.db, e.day) else s.db)
  {
    hide Merge, Inserted, EnsureForStaging, CopyIn, DropBefore;
  }

  /** Over every run the counters of flushes and failures are the numbers of both. */
  lemma {:induction false} FlushesAreCounted(cfg: Config, w: World, es: seq<IngestRuns.Event>)
    ensures var (m, m') := (w.service.metrics, Run(cfg, w, es).service.metrics);
            && m'.flushes == m.flushes + FlushCount(cfg, w, es, true)
            && m'.failures == m.failures + FlushCount(cfg, w, es, false)
    decreases |es|
  {
    if es != [] {
      StepFlushes(cfg, w, es[0]);
      hide Step, Flushes, Succeeds;
      FlushesAreCounted(cfg, Step(cfg, w, es[0]), es[1..]);
    }
  }

  // ---------------------------------------------------------------- partitions

  /** A partition holds the microseconds of one UTC day. */
  lemma DayHolds(t: int, d: int)
    ensures DayOf(t) == d <==> d * 86_400_000_000 <= t < (d + 1) * 86_400_000_000
  {
  }

  /** A purge leaves exactly the rows of that day or later, unchanged, and the partitions that hold them. */
  lemma PurgeExactly(db: Db, day: int)
    ensures var after := DropBefore(db, day);
            && (forall k :: k in after.events <==> k in db.events && k.timestamp >= day * 86_400_000_000)
            && (forall k :: k in after.events ==> after.events[k] == db.events[k])
            && (forall d :: d in after.days <==> d in db.days && d >= day) && after.staging == db.staging
  {
    forall k: Key ensures DayOf(k.timestamp) >= day <==> k.timestamp >= day * 86_400_000_000 {
    }
  }

  lemma FlushKeepsPlaced(s: Service, o: Outcome)
    requires Placed(s.db) && LegalFate(s.db, s.buf, o.fate)
    ensures Placed(Flush(s, o).db)
  {
    var copied := CopyIn(s.db, s.buf);
    if o.fate.Merged? {
      EnsuredCanMerge(copied, o.fate.scan);
    }
    hide Merge, Inserted, IsScan;
  }

  /** Over every run each stored row lies in the partition of its day, under its own key. */
  lemma {:induction false} RunKeepsPlaced(cfg: Config, w: World, es: seq<IngestRuns.Event>)
    requires LegalRun(cfg, w, es) && Placed(w.service.db)
    ensures Placed(Run(cfg, w, es).service.db)
    decreases |es|
  {
    if es != [] {
      StepKeepsPlaced(cfg, w, es[0]);
      hide Step, Legal, Placed;
      RunKeepsPlaced(cfg, Step(cfg, w, es[0]), es[1..]);
    }
  }

  lemma StepKeepsPlaced(cfg: Config, w: World, e: IngestRuns.Event)
    requires Legal(w, e) && Placed(w.service.db)
    ensures Placed(Step(cfg, w, e).service.db)
  {
    match e
    case Recv(o) =>
      if w.service.queue != [] {
        FlushKeepsPlaced(Moved(w.service), o);
        hide Flush, Placed;
      }
    case Tick(o) =>
      FlushKeepsPlaced(w.service, o);
      hide Flush, Placed;
    case _ =>
  }
}
