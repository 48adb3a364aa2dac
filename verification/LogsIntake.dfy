/**
 * The admission of a flattened log request, shared by both transports: the cap on records, the limiter charged
 * for what was submitted, the guard told about every refusal, and the channel.
 */
module LogsIntake {
  import opened Common
  import opened RateLimit
  import opened RateLimiterObject
  import opened Anomaly
  import opened Flatten
  import opened Logs
  import opened Ingest

  /** The limits, the size of a record in bytes, and an IP in text. */
  datatype Bounds = Bounds(maxRecords: nat, maxRecordBytes: nat, capacity: nat, size: StoredLog -> nat,
                           text: Ip -> string)

  datatype Intake = Intake(limiter: Limiter, guard: Guard, queue: seq<seq<StoredLog>>, tallies: Metrics)

  datatype Reply =
    | TooLarge(count: nat)
    | Limited(scope: Scope, retryAfterSecs: nat)
    | Accepted(total: nat, enqueued: nat)

  function Sized(b: Bounds, stored: seq<StoredLog>): (kept: seq<StoredLog>)
    ensures |kept| <= |stored|
  {
    if stored == [] then []
    else
      var rest, r := stored[..|stored| - 1], stored[|stored| - 1];
      Sized(b, rest) + if b.size(r) <= b.maxRecordBytes then [r] else []
  }

  /** The name of the service whose bucket pays: that of the first record left, or the IP. */
  function ServiceKey(b: Bounds, stored: seq<StoredLog>, ip: Ip): string {
    if stored != [] && stored[0].serviceName.Some? then stored[0].serviceName.value else b.text(ip)
  }

  /** `submitted.max(1) as u32`: the cast keeps the low 32 bits. */
  function CostOf(submitted: nat): u32 {
    Max(submitted, 1) % 0x1_0000_0000
  }

  function Refuse(cfg: GuardConfig, s: Intake, ip: Ip, now: real, v: Victims): Intake {
    s.(guard := RecordBad(cfg, s.guard, ip, now, v))
  }

  function Enqueue(b: Bounds, s: Intake, batch: seq<StoredLog>): (Intake, nat) {
    var (queue, t, n) := Enqueued(b.capacity, s.queue, s.tallies, batch);
    (s.(queue := queue, tallies := t), n)
  }

  ghost function AcceptLogs(b: Bounds, cfg: RateLimit.Config, guard: GuardConfig, s: Intake, ip: Ip, now: real,
                      parse: Parse<StoredLog>, v: Victims): (Intake, Reply)
  {
    if |parse.stored| > b.maxRecords then (Refuse(guard, s, ip, now, v), TooLarge(|parse.stored|))
    else
      var sized := Sized(b, parse.stored);
      var t := s.tallies;
      var s1 := s.(tallies := t.(droppedOversized := t.droppedOversized + Max(|parse.stored| - |sized|, 0)));
      var (limiter, d) := Check(cfg, s.limiter, now, ip, ServiceKey(b, sized, ip), CostOf(|parse.stored|));
      var s2 := s1.(limiter := limiter);
      if d.Deny? then (Refuse(guard, s2, ip, now, v), Limited(d.scope, d.retryAfterSecs))
      else
        var s3 := s2.(tallies := s2.tallies.(droppedSkew := s2.tallies.droppedSkew + parse.droppedSkew));
        var (s4, n) := Enqueue(b, s3, sized);
        (s4, Accepted(|sized|, n))
  }

  lemma {:induction false} SizedAreFewer(b: Bounds, stored: seq<StoredLog>)
    ensures |Sized(b, stored)| <= |stored|
    ensures forall r :: r in Sized(b, stored) <==> r in stored && b.size(r) <= b.maxRecordBytes
  {
    if stored != [] {
      var rest, r := stored[..|stored| - 1], stored[|stored| - 1];
      SizedAreFewer(b, rest);
      assert stored == rest + [r];
    }
  }

  // ---------------------------------------------------------------- what the intake promises

  /**
   * The flattener stops one record past the cap, and still the intake refuses a request as too large exactly when
   * all of it, flattened without a cap, is; the limiter and the queue are then as before.
   */
  lemma RefusesExactly(b: Bounds, cfg: RateLimit.Config, guard: GuardConfig, s: Intake, ip: Ip, now: real,
                       slots: seq<Slot<StoredLog>>, v: Victims)
    ensures var (s', reply) := AcceptLogs(b, cfg, guard, s, ip, now, Capped(slots, b.maxRecords), v);
            && (reply.TooLarge? <==> |Values(slots)| > b.maxRecords)
            && (reply.TooLarge? ==> reply.count == b.maxRecords + 1 && s' == s.(guard := s'.guard))
  {
    CappedRefinesUncapped(slots, b.maxRecords);
    hide Check, RecordBad, Sized;
  }

  /** Every record of an accepted request is enqueued or in exactly one of the counters of what was dropped. */
  lemma AcceptedIsAccounted(b: Bounds, cfg: RateLimit.Config, guard: GuardConfig, s: Intake, ip: Ip, now: real,
                            slots: seq<Slot<StoredLog>>, v: Victims)
    ensures var (s', reply) := AcceptLogs(b, cfg, guard, s, ip, now, Capped(slots, b.maxRecords), v);
            var (t, t') := (s.tallies, s'.tallies);
            reply.Accepted? ==>
              && |Values(slots)| == (t'.received - t.received) + (t'.droppedFull - t.droppedFull)
                                    + (t'.droppedOversized - t.droppedOversized)
              && t'.droppedSkew == t.droppedSkew + SkewedCount(slots)
              && reply.enqueued == t'.received - t.received
              && s'.guard == s.guard
              && s'.queue == s.queue + if |s.queue| < b.capacity then [Sized(b, Values(slots))] else []
  {
    CappedRefinesUncapped(slots, b.maxRecords);
    SizedAreFewer(b, Values(slots));
    hide Check, RecordBad, Sized, Capped, Values;
  }

  /** A refusal is one bad request of the IP, and enqueues nothing. */
  lemma RefusalIsOneBadRequest(b: Bounds, cfg: RateLimit.Config, guard: GuardConfig, s: Intake, ip: Ip, now: real,
                               parse: Parse<StoredLog>, v: Victims)
    ensures var (s', reply) := AcceptLogs(b, cfg, guard, s, ip, now, parse, v);
            !reply.Accepted? ==>
              && s'.guard == RecordBad(guard, s.guard, ip, now, v) && s'.queue == s.queue
              && s'.tallies == s.tallies.(droppedOversized := s.tallies.droppedOversized
                                            + if reply.Limited? then |parse.stored| - |Sized(b, parse.stored)| else 0)
  {
    SizedAreFewer(b, parse.stored);
    hide Check, RecordBad, Sized;
  }

  /** What is left after the size limit: concatenation keeps the order, and each record decides for itself. */
  lemma {:induction false} SizedSplits(b: Bounds, x: seq<StoredLog>, y: seq<StoredLog>, r: StoredLog)
    ensures Sized(b, x + y) == Sized(b, x) + Sized(b, y)
    ensures Sized(b, [r]) == if b.size(r) <= b.maxRecordBytes then [r] else []
    decreases |y|
  {
    assert [r][..0] == [];
    if y == [] {
      assert x + y == x;
    } else {
      SizedSplits(b, x, y[..|y| - 1], r);
      assert (x + y)[..|x + y| - 1] == x + y[..|y| - 1];
    }
  }

  ghost predicate FirstSized(b: Bounds, records: seq<StoredLog>, i: nat) {
    i < |records| && b.size(records[i]) <= b.maxRecordBytes && AllOversized(b, records[..i])
  }

  ghost predicate AllOversized(b: Bounds, records: seq<StoredLog>) {
    forall i :: 0 <= i < |records| ==> b.size(records[i]) > b.maxRecordBytes
  }

  /** The service of the first record within the size limit pays, or the address if that names none. */
  ghost predicate PaidBy(b: Bounds, records: seq<StoredLog>, ip: Ip, key: string) {
    || (AllOversized(b, records) && key == b.text(ip))
    || exists i: nat :: FirstSized(b, records, i)
                        && key == if records[i].serviceName.Some? then records[i].serviceName.value else b.text(ip)
  }

  lemma {:induction false} FirstIsSized(b: Bounds, records: seq<StoredLog>) returns (first: nat)
    ensures if Sized(b, records) == [] then AllOversized(b, records)
            else FirstSized(b, records, first) && records[first] == Sized(b, records)[0]
  {
    first := 0;
    if records != [] {
      var n := |records| - 1;
      first := FirstIsSized(b, records[..n]);
      if Sized(b, records[..n]) == [] {
        first := n;
      } else {
        assert records[..n][..first] == records[..first];
      }
    }
  }

  /** The cast to u32 keeps the number submitted exactly below 2^32. */
  lemma CostIsSubmittedExactly(submitted: nat)
    ensures CostOf(submitted) == Max(submitted, 1) <==> submitted < 0x1_0000_0000
  {
  }

  /**
   * With a cap below 2^32 a request that is not too large is put to the limiter once, for its payer, and with all
   * records that were submitted, those over the size limit included.
   */
  lemma ChargesSubmitted(b: Bounds, cfg: RateLimit.Config, guard: GuardConfig, s: Intake, ip: Ip, now: real,
                         slots: seq<Slot<StoredLog>>, v: Victims)
    returns (key: string, n: u32)
    requires b.maxRecords < 0x1_0000_0000 && |Values(slots)| <= b.maxRecords
    ensures PaidBy(b, Values(slots), ip, key) && n == Max(|Values(slots)|, 1)
    ensures var (s', reply) := AcceptLogs(b, cfg, guard, s, ip, now, Capped(slots, b.maxRecords), v);
            var (limiter, d) := Check(cfg, s.limiter, now, ip, key, n);
            && s'.limiter == limiter && (reply.Accepted? <==> d.Allow?)
            && (d.Deny? ==> reply == Limited(d.scope, d.retryAfterSecs))
            && (d.Allow? ==> reply.total == |Sized(b, Values(slots))|)
  {
    CappedRefinesUncapped(slots, b.maxRecords);
    var first := FirstIsSized(b, Values(slots));
    CostIsSubmittedExactly(|Values(slots)|);
    key, n := ServiceKey(b, Sized(b, Values(slots)), ip), CostOf(|Values(slots)|);
    assert PaidBy(b, Values(slots), ip, key);
    hide Check, RecordBad, Sized, Capped, Values, CostOf, PaidBy, ServiceKey;
  }

  // ---------------------------------------------------------------- the intake as an object

  /** `drop_oversized`: keeps the records that are not over the size limit, and counts the others. */
  method DropOversized(b: Bounds, stored: seq<StoredLog>, counters: Counters) returns (kept: seq<StoredLog>)
    modifies counters`droppedOversized
    ensures kept == Sized(b, stored)
    ensures counters.droppedOversized == old(counters.droppedOversized) + Max(|stored| - |kept|, 0)
  {
    kept := [];
    for i := 0 to |stored|
      invariant kept == Sized(b, stored[..i])
    {
      assert stored[..i + 1][..i] == stored[..i];
      if b.size(stored[i]) <= b.maxRecordBytes {
        kept := kept + [stored[i]];
      }
    }
    assert stored[..|stored|] == stored;
    SizedAreFewer(b, stored);
    counters.droppedOversized := counters.droppedOversized + (|stored| - |kept|);
  }

  class LogsState {
    const bounds: Bounds
    const limiter: RateLimiter
    const guard: AnomalyGuard
    const logs: Ingestor<StoredLog>

    ghost predicate Valid()
      reads limiter, guard
    {
      && limiter.Valid() && guard.Valid() && logs.channel.capacity == bounds.capacity
      && guard !in limiter.Repr && logs.channel !in limiter.Repr && logs.counters !in limiter.Repr
    }

    ghost function State(): Intake
      requires Valid()
      reads limiter, limiter.Repr, guard, logs.channel, logs.counters
    {
      Intake(limiter.State(), guard.State(), logs.channel.batches, logs.counters.State())
    }

    constructor (bounds: Bounds, cfg: RateLimit.Config, guard: GuardConfig, now: real)
      ensures Valid() && this.bounds == bounds && limiter.cfg == cfg && this.guard.cfg == guard
      ensures State() == Intake(New(cfg, now), Unused, [], NoMetrics)
    {
      this.bounds := bounds;
      limiter := new RateLimiter(cfg, now);
      this.guard := new AnomalyGuard(guard);
      var channel := new Channel(bounds.capacity);
      var counters := new Counters();
      logs := new Ingestor(channel, counters);
    }

    method Send(batch: seq<StoredLog>) returns (n: nat)
      requires Valid()
      modifies logs.channel, logs.counters
      ensures Valid() && (State(), n) == Enqueue(bounds, old(State()), batch)
    {
      hide GuardInv;
      n := logs.DoTryEnqueue(batch);
    }

    method Blame(ip: Ip, now: real) returns (ghost v: Victims)
      requires Valid()
      modifies guard
      ensures Valid() && Legal(guard.cfg, old(guard.State()), ip, now, v)
      ensures State() == Refuse(guard.cfg, old(State()), ip, now, v)
    {
      hide RecordBad, Legal, GuardInv;
      v := guard.DoRecordBad(ip, now);
    }

    method Charge(ip: Ip, now: real, key: string, cost: u32) returns (d: Decision)
      requires Valid()
      modifies limiter.Repr
      ensures Valid()
      ensures var (after, d') := Check(limiter.cfg, old(State()).limiter, now, ip, key, cost);
              State() == old(State()).(limiter := after) && d == d'
    {
      hide Check, GuardInv;
      d := limiter.DoCheck(now, ip, key, cost);
    }

    method Size(stored: seq<StoredLog>) returns (kept: seq<StoredLog>)
      requires Valid()
      modifies logs.counters
      ensures Valid() && kept == Sized(bounds, stored)
      ensures var s := old(State());
              State() == s.(tallies := s.tallies.(
                              droppedOversized := s.tallies.droppedOversized + Max(|stored| - |kept|, 0)))
    {
      hide GuardInv;
      kept := DropOversized(bounds, stored, logs.counters);
    }

    method CountSkewed(n: nat)
      requires Valid()
      modifies logs.counters
      ensures Valid()
      ensures var s := old(State());
              State() == s.(tallies := s.tallies.(droppedSkew := s.tallies.droppedSkew + n))
    {
      hide GuardInv;
      if n > 0 {
        logs.counters.droppedSkew := logs.counters.droppedSkew + n;
      }
    }

    method DoAcceptLogs(ip: Ip, now: real, parse: Parse<StoredLog>) returns (reply: Reply, ghost v: Victims)
      requires Valid()
      modifies limiter.Repr, guard, logs.channel, logs.counters
      ensures Valid()
      ensures (State(), reply) == old(AcceptLogs(bounds, limiter.cfg, guard.cfg, State(), ip, now, parse, v))
    {
      hide Check, RecordBad, Legal, Sized, GuardInv, State, Enqueue, ServiceKey;
      v := Victims(ip, ip);
      if |parse.stored| > bounds.maxRecords {
        v := Blame(ip, now);
        return TooLarge(|parse.stored|), v;
      }
      var sized := Size(parse.stored);
      var d := Charge(ip, now, ServiceKey(bounds, sized, ip), CostOf(|parse.stored|));
      if d.Deny? {
        v := Blame(ip, now);
        return Limited(d.scope, d.retryAfterSecs), v;
      }
      CountSkewed(parse.droppedSkew);
      var n := Send(sized);
      reply := Accepted(|sized|, n);
    }
  }
}
