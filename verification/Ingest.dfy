/**
 * Asynchronous ingestion of one domain: a bounded channel, a batcher that buffers, and the flush of a
 * micro-batch by COPY and merge. What the database and the network do to a flush is an outcome that the
 * environment picks; nothing here depends on which.
 */
module Ingest {
  import opened Common
  import opened Store

  datatype Config = Config(capacity: nat, flushBatchSize: nat)

  /**
   * How far a flush gets. NotCopied: no connection, or the COPY failed as a whole. NotEnsured and NotMerged: the
   * rows are in staging, and the next statement failed. Merged: the merge committed; its reply may be lost.
   */
  datatype Fate = NotCopied | NotEnsured | NotMerged | Merged(scan: seq<Row>, replied: bool)

  /** A flush, and whether the TRUNCATE after a failed one works. */
  datatype Outcome = Outcome(fate: Fate, reset: bool) {
    predicate Fails() {
      !fate.Merged? || !fate.replied
    }
  }

  datatype Metrics = Metrics(received: nat, inserted: nat, droppedSkew: nat, droppedOversized: nat, droppedFull: nat,
                             failures: nat, flushes: nat) {
    /** What the statistics call deduplicated: a saturating difference. */
    function Deduplicated(): nat {
      if received >= inserted then received - inserted else 0
    }
  }

  const NoMetrics := Metrics(0, 0, 0, 0, 0, 0, 0)

  datatype Service = Service(queue: seq<seq<Row>>, buf: seq<Row>, db: Db, metrics: Metrics)

  function Start(db: Db): Service {
    Service([], [], db, NoMetrics)
  }

  /** A batch goes into the channel as a whole, or is dropped as a whole; also how many records went in. */
  function Enqueued<T>(capacity: nat, queue: seq<seq<T>>, m: Metrics, batch: seq<T>): (seq<seq<T>>, Metrics, nat) {
    if |queue| < capacity then (queue + [batch], m.(received := m.received + |batch|), |batch|)
    else (queue, m.(droppedFull := m.droppedFull + |batch|), 0)
  }

  function TryEnqueue(cfg: Config, s: Service, batch: seq<Row>): Service {
    var (queue, m, _) := Enqueued(cfg.capacity, s.queue, s.metrics, batch);
    s.(queue := queue, metrics := m)
  }

  ghost predicate LegalFate(db: Db, buf: seq<Row>, f: Fate) {
    f.Merged? ==> IsScan(CopyIn(db, buf), f.scan)
  }

  function FlushInner(db: Db, buf: seq<Row>, f: Fate): (Db, Option<nat>) {
    var copied := CopyIn(db, buf);
    match f
    case NotCopied => (db, None)
    case NotEnsured => (copied, None)
    case NotMerged => (EnsureForStaging(copied), None)
    case Merged(scan, replied) =>
      var ensured := EnsureForStaging(copied);
      (Merge(ensured, scan), if replied then Some(|Inserted(ensured, scan)|) else None)
  }

  /** The end of a flush: the counters, a staging table emptied after a failure if that works, an empty buffer. */
  function Settle(s: Service, inserted: Option<nat>, reset: bool): Service {
    var m := s.metrics;
    if inserted.Some? then
      s.(buf := [], metrics := m.(inserted := m.inserted + inserted.value, flushes := m.flushes + 1))
    else
      s.(buf := [], db := if reset then s.db.(staging := []) else s.db, metrics := m.(failures := m.failures + 1))
  }

  function Flush(s: Service, o: Outcome): Service {
    if s.buf == [] then s
    else
      var (db, inserted) := FlushInner(s.db, s.buf, o.fate);
      Settle(s.(db := db), inserted, o.reset)
  }

  /** A batch from the channel; a full buffer is flushed. */
  function Receive(cfg: Config, s: Service, o: Outcome): Service
    requires s.queue != []
  {
    var s' := s.(queue := s.queue[1..], buf := s.buf + s.queue[0]);
    if |s'.buf| >= cfg.flushBatchSize then Flush(s', o) else s'
  }

  ghost predicate LegalReceive(s: Service, o: Outcome)
    requires s.queue != []
  {
    LegalFate(s.db, s.buf + s.queue[0], o.fate)
  }

  /** Shutdown: what is in the channel is received, batch by batch, and then the buffer is flushed. */
  function Drain(cfg: Config, s: Service, os: seq<Outcome>): Service
    requires |os| > |s.queue|
    decreases |s.queue|
  {
    if s.queue == [] then Flush(s, os[0])
    else
      FlushKeepsQueue(s.(queue := s.queue[1..], buf := s.buf + s.queue[0]), os[0]);
      Drain(cfg, Receive(cfg, s, os[0]), os[1..])
  }

  ghost predicate LegalDrain(cfg: Config, s: Service, os: seq<Outcome>)
    decreases |s.queue|
  {
    && |os| > |s.queue|
    && if s.queue == [] then LegalFate(s.db, s.buf, os[0].fate)
       else
         FlushKeepsQueue(s.(queue := s.queue[1..], buf := s.buf + s.queue[0]), os[0]);
         LegalReceive(s, os[0]) && LegalDrain(cfg, Receive(cfg, s, os[0]), os[1..])
  }

  lemma FlushKeepsQueue(s: Service, o: Outcome)
    ensures Flush(s, o).queue == s.queue && Flush(s, o).buf == []
  {
  }

  // ---------------------------------------------------------------- the objects

  class Counters {
    var received: nat
    var inserted: nat
    var droppedSkew: nat
    var droppedOversized: nat
    var droppedFull: nat
    var failures: nat
    var flushes: nat

    ghost function State(): Metrics
      reads this
    {
      Metrics(received, inserted, droppedSkew, droppedOversized, droppedFull, failures, flushes)
    }

    constructor ()
      ensures State() == NoMetrics
    {
      received, inserted, droppedSkew, droppedOversized, droppedFull := 0, 0, 0, 0, 0;
      failures, flushes := 0, 0;
    }
  }

  /** A bounded queue of batches. */
  class Channel<T> {
    const capacity: nat
    var batches: seq<seq<T>>

    constructor (capacity: nat)
      ensures this.capacity == capacity && batches == []
    {
      this.capacity := capacity;
      batches := [];
    }

    method TrySend(batch: seq<T>) returns (ok: bool)
      modifies this
      ensures ok == (|old(batches)| < capacity)
      ensures batches == if ok then old(batches) + [batch] else old(batches)
    {
      ok := |batches| < capacity;
      if ok {
        batches := batches + [batch];
      }
    }

    method TryRecv() returns (batch: Option<seq<T>>)
      modifies this
      ensures old(batches) == [] ==> batch.None? && batches == []
      ensures old(batches) != [] ==> batch == Some(old(batches)[0]) && batches == old(batches)[1..]
    {
      if batches == [] {
        return None;
      }
      batch := Some(batches[0]);
      batches := batches[1..];
    }
  }

  /** The entrance to a domain: the sending end of its channel, and its counters. */
  class Ingestor<T> {
    const channel: Channel<T>
    const counters: Counters

    constructor (channel: Channel<T>, counters: Counters)
      ensures this.channel == channel && this.counters == counters
    {
      this.channel := channel;
      this.counters := counters;
    }

    /** Enqueues without blocking; answers how many records were enqueued. */
    method DoTryEnqueue(batch: seq<T>) returns (n: nat)
      modifies channel, counters
      ensures (channel.batches, counters.State(), n)
           == Enqueued(channel.capacity, old(channel.batches), old(counters.State()), batch)
    {
      var ok := channel.TrySend(batch);
      if ok {
        counters.received := counters.received + |batch|;
        n := |batch|;
      } else {
        counters.droppedFull := counters.droppedFull + |batch|;
        n := 0;
      }
    }
  }

  /** Opens a domain: both ends share the channel and the counters. */
  method Spawn(cfg: Config, db: Database) returns (ingestor: Ingestor<Row>, batcher: Batcher)
    ensures batcher.Cfg() == cfg && batcher.db == db && batcher.State() == Start(db.State())
    ensures ingestor.channel == batcher.channel && ingestor.counters == batcher.counters
  {
    batcher := new Batcher(cfg, db);
    ingestor := new Ingestor(batcher.channel, batcher.counters);
  }

  class Batcher {
    const flushBatchSize: nat
    const channel: Channel<Row>
    const db: Database
    const counters: Counters
    var buf: seq<Row>

    ghost function Cfg(): Config {
      Config(channel.capacity, flushBatchSize)
    }

    ghost function State(): Service
      reads this, channel, db, counters
    {
      Service(channel.batches, buf, db.State(), counters.State())
    }

    constructor (cfg: Config, db: Database)
      ensures Cfg() == cfg && this.db == db && fresh(channel) && fresh(counters)
      ensures State() == Start(db.State())
    {
      flushBatchSize := cfg.flushBatchSize;
      channel := new Channel(cfg.capacity);
      this.db := db;
      counters := new Counters();
      buf := [];
    }

    method DoFlushInner(f: Fate) returns (inserted: Option<nat>)
      requires LegalFate(db.State(), buf, f)
      modifies db
      ensures (db.State(), inserted) == FlushInner(old(db.State()), buf, f)
    {
      if f == NotCopied {
        return None;
      }
      hide Merge, Inserted, CanMerge, EnsureForStaging, IsScan;
      db.CopyRows(buf);
      if f == NotEnsured {
        return None;
      }
      db.EnsurePartitionsForStaging();
      if f == NotMerged {
        return None;
      }
      EnsuredCanMerge(old(CopyIn(db.State(), buf)), f.scan);
      var n, ok := db.MergeStaging(f.scan);
      inserted := if f.replied then Some(n) else None;
    }

    method DoSettle(inserted: Option<nat>, reset: bool)
      modifies this`buf, db, counters
      ensures State() == Settle(old(State()), inserted, reset)
    {
      if inserted.Some? {
        counters.inserted := counters.inserted + inserted.value;
        counters.flushes := counters.flushes + 1;
      } else {
        counters.failures := counters.failures + 1;
        if reset {
          db.Truncate();
        }
      }
      buf := [];
    }

    method DoFlush(o: Outcome)
      requires LegalFate(db.State(), buf, o.fate)
      modifies this`buf, db, counters
      ensures State() == Flush(old(State()), o)
    {
      if buf == [] {
        return;
      }
      hide FlushInner, LegalFate, Settle;
      var inserted := DoFlushInner(o.fate);
      DoSettle(inserted, o.reset);
    }

    /** A batch has come: the body of both the receiving arm and the loop that drains the channel. */
    method Accept(batch: seq<Row>, o: Outcome)
      requires LegalFate(db.State(), buf + batch, o.fate)
      modifies this`buf, db, counters
      ensures var s := old(State()).(buf := old(buf) + batch);
              State() == if |s.buf| >= flushBatchSize then Flush(s, o) else s
    {
      hide Flush;
      buf := buf + batch;
      if |buf| >= flushBatchSize {
        DoFlush(o);
      }
    }

    method OnReceive(o: Outcome)
      requires channel.batches != [] && LegalReceive(State(), o)
      modifies this`buf, channel, db, counters
      ensures State() == Receive(Cfg(), old(State()), o)
    {
      hide Flush;
      var batch := channel.TryRecv();
      Accept(batch.value, o);
    }

    method OnTick(o: Outcome)
      requires LegalFate(db.State(), buf, o.fate)
      modifies this`buf, db, counters
      ensures State() == Flush(old(State()), o)
    {
      if buf != [] {
        DoFlush(o);
      }
    }

    method Shutdown(os: seq<Outcome>)
      requires LegalDrain(Cfg(), State(), os)
      modifies this`buf, channel, db, counters
      ensures State() == Drain(Cfg(), old(State()), os)
      ensures channel.batches == [] && buf == []
    {
      hide Flush;
      var i := 0;
      while channel.batches != []
        invariant i <= |os| && LegalDrain(Cfg(), State(), os[i..])
        invariant Drain(Cfg(), State(), os[i..]) == Drain(Cfg(), old(State()), os)
        decreases |channel.batches|
      {
        ghost var s := State();
        FlushKeepsQueue(s.(queue := s.queue[1..], buf := s.buf + s.queue[0]), os[i]);
        assert os[i..][1..] == os[i + 1..] && os[i..][0] == os[i];
        OnReceive(os[i]);
        i := i + 1;
      }
      FlushKeepsQueue(State(), os[i]);
      DoFlush(os[i]);
    }
  }
}
