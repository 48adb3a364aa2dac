/**
 * Retries under every interleaving: their number is bounded and counted right, none leaves the schedule early,
 * and one whose Retry-After was a date never leaves it at all.
 */
module SdkRetries {
  import opened Common
  import opened Sdk
  import opened SdkRuns

  /** How many batches an event can be sent in: the limit of retries counts attempts, and 0 acts like 1. */
  function Limit(cfg: Config): (n: nat)
    ensures n >= 1
  {
    Max(cfg.maxRetries, 1)
  }

  /** The retry counts are the attempts made, minus the one under way for a batch in flight. */
  ghost predicate CountsOk(cfg: Config, attempts: multiset<Event>, items: seq<Queued>, underWay: nat) {
    forall i :: 0 <= i < |items| ==>
      attempts[items[i].event] == items[i].retryCount + underWay && items[i].retryCount < Limit(cfg)
  }

  ghost predicate Attempted(cfg: Config, w: World) {
    && CountsOk(cfg, w.attempts, w.client.queue, 0)
    && (forall i :: 0 <= i < |w.client.schedule| ==> CountsOk(cfg, w.attempts, w.client.schedule[i].items, 0))
    && (forall i :: 0 <= i < |w.flying| ==> CountsOk(cfg, w.attempts, w.flying[i], 1))
    && (forall e :: w.attempts[e] <= Limit(cfg))
    && (forall e :: w.client.fates.abandoned[e] > 0 ==> w.attempts[e] == Limit(cfg))
    && (forall e :: e !in w.tracked ==> w.attempts[e] == 0)
  }

  lemma CountsConcat(cfg: Config, attempts: multiset<Event>, a: seq<Queued>, b: seq<Queued>, underWay: nat)
    requires CountsOk(cfg, attempts, a, underWay) && CountsOk(cfg, attempts, b, underWay)
    ensures CountsOk(cfg, attempts, a + b, underWay)
  {
  }

  lemma CountsPart(cfg: Config, attempts: multiset<Event>, a: seq<Queued>, n: nat, underWay: nat)
    requires n <= |a| && CountsOk(cfg, attempts, a, underWay)
    ensures CountsOk(cfg, attempts, a[..n], underWay) && CountsOk(cfg, attempts, a[n..], underWay)
  {
  }

  lemma {:induction false} DueAreListed(schedule: seq<Retry>, now: real)
    ensures forall i :: 0 <= i < |DueOf(schedule, now)| ==>
              DueOf(schedule, now)[i] in schedule && Due(DueOf(schedule, now)[i], now)
    ensures forall i :: 0 <= i < |PendingOf(schedule, now)| ==>
              PendingOf(schedule, now)[i] in schedule && !Due(PendingOf(schedule, now)[i], now)
  {
    hide Due;
    if schedule != [] {
      DueAreListed(schedule[..|schedule| - 1], now);
    }
  }

  lemma {:induction false} UnshiftedCounts(cfg: Config, attempts: multiset<Event>, due: seq<Retry>, q: seq<Queued>)
    requires CountsOk(cfg, attempts, q, 0)
    requires forall i :: 0 <= i < |due| ==> CountsOk(cfg, attempts, due[i].items, 0)
    ensures CountsOk(cfg, attempts, Unshifted(due, q), 0)
  {
    hide CountsOk;
    if due != [] {
      var rest := due[..|due| - 1];
      UnshiftedCounts(cfg, attempts, rest, q);
      CountsConcat(cfg, attempts, due[|due| - 1].items, Unshifted(rest, q), 0);
    }
  }

  ghost predicate ClientOk(cfg: Config, attempts: multiset<Event>, c: Client) {
    && CountsOk(cfg, attempts, c.queue, 0)
    && (forall i :: 0 <= i < |c.schedule| ==> CountsOk(cfg, attempts, c.schedule[i].items, 0))
  }

  lemma DrainKeepsCounts(cfg: Config, attempts: multiset<Event>, c: Client, now: real)
    requires ClientOk(cfg, attempts, c)
    ensures ClientOk(cfg, attempts, Sdk.DrainDue(c, now))
  {
    hide CountsOk, Due;
    DueAreListed(c.schedule, now);
    UnshiftedCounts(cfg, attempts, DueOf(c.schedule, now), c.queue);
  }

  lemma {:induction false} RetriedCounts(cfg: Config, attempts: multiset<Event>, items: seq<Queued>)
    requires CountsOk(cfg, attempts, items, 1)
    ensures CountsOk(cfg, attempts, Retried(items, cfg.maxRetries), 0)
  {
    if items != [] {
      var rest, r := items[..|items| - 1], items[|items| - 1];
      RetriedCounts(cfg, attempts, rest);
      assert attempts[r.event] == r.retryCount + 1;
    }
  }

  lemma {:induction false} GivenUpSpent(cfg: Config, attempts: multiset<Event>, items: seq<Queued>, e: Event)
    requires CountsOk(cfg, attempts, items, 1) && Count(GivenUp(items, cfg.maxRetries), e) > 0
    ensures attempts[e] == Limit(cfg)
  {
    if items == [] {
      CountNone(e);
    } else {
      var rest, r := items[..|items| - 1], items[|items| - 1];
      CountConcat(GivenUp(rest, cfg.maxRetries), [r], e);
      CountOne(r, e);
      assert GivenUp(rest, cfg.maxRetries) + [] == GivenUp(rest, cfg.maxRetries);
      hide Count;
      if Count(GivenUp(rest, cfg.maxRetries), e) > 0 {
        GivenUpSpent(cfg, attempts, rest, e);
      }
    }
  }

  lemma SettleKeepsCounts(cfg: Config, w: World, i: nat, a: Answer)
    requires Attempted(cfg, w) && i < |w.flying|
    ensures Attempted(cfg, Next(cfg, w, Answered(i, a)))
  {
    var items := w.flying[i];
    if a.Failed? {
      RetriedCounts(cfg, w.attempts, items);
      forall e | Count(GivenUp(items, cfg.maxRetries), e) > 0 ensures w.attempts[e] == Limit(cfg) {
        GivenUpSpent(cfg, w.attempts, items, e);
      }
    }
    hide CountsOk, Retried, GivenUp, NotBefore, Events;
  }

  // ---------------------------------------------------------------- taking a batch

  lemma {:induction false} InBatch(batches: seq<seq<Queued>>, i: nat, e: Event)
    requires i < |batches|
    ensures InBatches(batches, e) >= Count(batches[i], e)
  {
    hide Count;
    if i < |batches| - 1 {
      InBatch(batches[..|batches| - 1], i, e);
    }
  }

  lemma {:induction false} InGroup(schedule: seq<Retry>, i: nat, e: Event)
    requires i < |schedule|
    ensures InSchedule(schedule, e) >= Count(schedule[i].items, e)
  {
    hide Count;
    if i < |schedule| - 1 {
      InGroup(schedule[..|schedule| - 1], i, e);
    }
  }

  ghost predicate Apart(items: seq<Queued>, batch: seq<Queued>) {
    forall e :: Count(items, e) + Count(batch, e) <= 1
  }

  /** Items none of whose events is in the batch keep their counts. */
  lemma ElsewhereKept(cfg: Config, attempts: multiset<Event>, items: seq<Queued>, batch: seq<Queued>, underWay: nat)
    requires CountsOk(cfg, attempts, items, underWay) && Apart(items, batch)
    ensures CountsOk(cfg, attempts + Bag(batch), items, underWay)
  {
    forall i | 0 <= i < |items| ensures (attempts + Bag(batch))[items[i].event] == attempts[items[i].event] {
      CountMember(items, i);
    }
  }

  lemma TakenCounted(cfg: Config, attempts: multiset<Event>, batch: seq<Queued>)
    requires CountsOk(cfg, attempts, batch, 0) && Apart([], batch)
    ensures CountsOk(cfg, attempts + Bag(batch), batch, 1)
  {
    forall e ensures Count(batch, e) <= 1 { assert Count([], e) + Count(batch, e) <= 1; }
    forall i | 0 <= i < |batch| ensures (attempts + Bag(batch))[batch[i].event] == attempts[batch[i].event] + 1 {
      CountMember(batch, i);
    }
  }

  lemma TakenBounded(cfg: Config, attempts: multiset<Event>, batch: seq<Queued>, e: Event)
    requires CountsOk(cfg, attempts, batch, 0) && Count(batch, e) <= 1 && attempts[e] <= Limit(cfg)
    ensures (attempts + Bag(batch))[e] <= Limit(cfg)
  {
    if Count(batch, e) > 0 {
      assert e in Events(batch);
      var i :| 0 <= i < |batch| && Events(batch)[i] == e;
      assert attempts[batch[i].event] == batch[i].retryCount;
    }
  }

  /** What is taken from the front of the queue is nowhere else. */
  lemma TakenIsNowhereElse(w: World, n: nat, e: Event)
    requires OnePlace(w) && n <= |w.client.queue|
    ensures Count(w.client.queue[..n], e) + Count(w.client.queue[n..], e) + InSchedule(w.client.schedule, e)
            + InBatches(w.flying, e) + Ended(w.client.fates, e) <= 1
    ensures Count(w.client.queue[..n], e) > 0 ==> e in w.tracked
  {
    CountSplit(w.client.queue, n, e);
    assert Places(w, e) <= 1;
  }

  lemma OthersApart(w: World, n: nat)
    requires OnePlace(w) && n <= |w.client.queue|
    ensures var batch := w.client.queue[..n];
            && Apart([], batch) && Apart(w.client.queue[n..], batch)
            && (forall i :: 0 <= i < |w.client.schedule| ==> Apart(w.client.schedule[i].items, batch))
            && (forall i :: 0 <= i < |w.flying| ==> Apart(w.flying[i], batch))
  {
    hide OnePlace, Ended;
    var c, batch := w.client, w.client.queue[..n];
    forall e ensures Count([], e) + Count(batch, e) <= 1 && Count(c.queue[n..], e) + Count(batch, e) <= 1 {
      TakenIsNowhereElse(w, n, e);
      CountNone(e);
    }
    forall i | 0 <= i < |c.schedule| ensures Apart(c.schedule[i].items, batch) {
      forall e ensures Count(c.schedule[i].items, e) + Count(batch, e) <= 1 {
        TakenIsNowhereElse(w, n, e);
        InGroup(c.schedule, i, e);
      }
    }
    forall i | 0 <= i < |w.flying| ensures Apart(w.flying[i], batch) {
      forall e ensures Count(w.flying[i], e) + Count(batch, e) <= 1 {
        TakenIsNowhereElse(w, n, e);
        InBatch(w.flying, i, e);
      }
    }
  }

  lemma TakeKeepsTotals(cfg: Config, w: World, n: nat, e: Event)
    requires Attempted(cfg, w) && OnePlace(w) && n <= |w.client.queue|
    ensures var attempts := w.attempts + Bag(w.client.queue[..n]);
            && attempts[e] <= Limit(cfg)
            && (w.client.fates.abandoned[e] > 0 ==> attempts[e] == Limit(cfg))
            && (e !in w.tracked ==> attempts[e] == 0)
  {
    TakenIsNowhereElse(w, n, e);
    CountsPart(cfg, w.attempts, w.client.queue, n, 0);
    TakenBounded(cfg, w.attempts, w.client.queue[..n], e);
    assert (w.attempts + Bag(w.client.queue[..n]))[e] == w.attempts[e] + Count(w.client.queue[..n], e);
    hide Bag, CountsOk, OnePlace;
  }

  lemma TakeKeepsCounts(cfg: Config, w: World)
    requires Attempted(cfg, w) && OnePlace(w) && w.client.queue != []
    ensures Attempted(cfg, Next(cfg, w, Take))
  {
    var c, n := w.client, Min(cfg.batchSize, |w.client.queue|);
    var batch, rest := c.queue[..n], c.queue[n..];
    hide CountsOk, Apart, OnePlace, Bag;
    OthersApart(w, n);
    CountsPart(cfg, w.attempts, c.queue, n, 0);
    TakenCounted(cfg, w.attempts, batch);
    ElsewhereKept(cfg, w.attempts, rest, batch, 0);
    forall i | 0 <= i < |c.schedule| ensures CountsOk(cfg, w.attempts + Bag(batch), c.schedule[i].items, 0) {
      ElsewhereKept(cfg, w.attempts, c.schedule[i].items, batch, 0);
    }
    forall i | 0 <= i < |w.flying| ensures CountsOk(cfg, w.attempts + Bag(batch), w.flying[i], 1) {
      ElsewhereKept(cfg, w.attempts, w.flying[i], batch, 1);
    }
    var w' := Next(cfg, w, Take);
    assert w' == w.(client := c.(queue := rest), flying := w.flying + [batch], attempts := w.attempts + Bag(batch));
    hide Next;
    TotalsKept(cfg, w, n);
  }

  lemma TotalsKept(cfg: Config, w: World, n: nat)
    requires Attempted(cfg, w) && OnePlace(w) && n <= |w.client.queue|
    ensures var attempts := w.attempts + Bag(w.client.queue[..n]);
            && (forall e :: attempts[e] <= Limit(cfg))
            && (forall e :: w.client.fates.abandoned[e] > 0 ==> attempts[e] == Limit(cfg))
            && (forall e :: e !in w.tracked ==> attempts[e] == 0)
  {
    forall e { TakeKeepsTotals(cfg, w, n, e); }
  }

  lemma StepKeepsCounts(cfg: Config, w: World, step: Step)
    requires Enabled(w, step) && Attempted(cfg, w) && OnePlace(w)
    ensures Attempted(cfg, Next(cfg, w, step))
  {
    match step
    case Take => TakeKeepsCounts(cfg, w);
    case Answered(i, a) => SettleKeepsCounts(cfg, w, i, a);
    case DrainDue(now) =>
      assert ClientOk(cfg, w.attempts, w.client);
      DrainKeepsCounts(cfg, w.attempts, w.client, now);
      hide CountsOk, OnePlace;
    case Beacon(now) =>
      assert ClientOk(cfg, w.attempts, w.client);
      DrainKeepsCounts(cfg, w.attempts, w.client, now);
      assert CountsOk(cfg, w.attempts, [], 0);
      hide CountsOk, OnePlace;
    case Track(e) =>
      var n := Excess(|w.client.queue|, cfg.maxQueueSize);
      CountsPart(cfg, w.attempts, w.client.queue, n, 0);
      assert CountsOk(cfg, w.attempts, [Queued(e, 0)], 0);
      CountsConcat(cfg, w.attempts, w.client.queue[n..], [Queued(e, 0)], 0);
      hide CountsOk, OnePlace, Excess;
    case BeaconEnds(_, _) =>
      hide CountsOk, OnePlace;
  }

  lemma {:induction false} RunKeepsCounts(cfg: Config, w: World, steps: seq<Step>)
    requires LegalRun(cfg, w, steps) && Attempted(cfg, w) && OnePlace(w)
    ensures Attempted(cfg, Run(cfg, w, steps))
    decreases |steps|
  {
    if steps != [] {
      hide Attempted, OnePlace, Next, Enabled;
      StepKeepsCounts(cfg, w, steps[0]);
      StepKeepsOnePlace(cfg, w, steps[0]);
      RunKeepsCounts(cfg, Next(cfg, w, steps[0]), steps[1..]);
    }
  }

  /**
   * Over every interleaving: no event is sent in more than max(1, maxRetries) batches, an abandoned one was sent in
   * exactly as many, and the retry count of a queued or scheduled item is its number of attempts.
   */
  lemma AttemptsAreBounded(cfg: Config, steps: seq<Step>)
    requires LegalRun(cfg, NewWorld, steps)
    ensures Attempted(cfg, Run(cfg, NewWorld, steps))
  {
    assert OnePlace(NewWorld) by {
      forall f ensures Places(NewWorld, f) == 0 { CountNone(f); }
    }
    RunKeepsCounts(cfg, NewWorld, steps);
  }

  // ---------------------------------------------------------------- nothing leaves the schedule early

  /** The clock readings at which a step looks for due retries. */
  predicate TooEarly(step: Step, r: Retry) {
    match step
    case DrainDue(now) => !Due(r, now)
    case Beacon(now) => !Due(r, now)
    case _ => true
  }

  lemma {:induction false} PendingStays(schedule: seq<Retry>, now: real, r: Retry)
    requires r in schedule && !Due(r, now)
    ensures r in PendingOf(schedule, now)
  {
    var rest, last := schedule[..|schedule| - 1], schedule[|schedule| - 1];
    if r in rest {
      PendingStays(rest, now, r);
    }
  }

  lemma StepHolds(cfg: Config, w: World, step: Step, r: Retry)
    requires Enabled(w, step) && r in w.client.schedule && TooEarly(step, r)
    ensures r in Next(cfg, w, step).client.schedule
  {
    match step
    case DrainDue(now) => PendingStays(w.client.schedule, now, r);
    case Beacon(now) => PendingStays(w.client.schedule, now, r);
    case Answered(i, a) => hide Retried, GivenUp;
    case _ =>
  }

  /** A scheduled retry stays scheduled, whatever else happens, until some flush reads a clock past its time. */
  lemma {:induction false} HeldUntilDue(cfg: Config, w: World, steps: seq<Step>, r: Retry)
    requires LegalRun(cfg, w, steps) && r in w.client.schedule
    requires forall i :: 0 <= i < |steps| ==> TooEarly(steps[i], r)
    ensures r in Run(cfg, w, steps).client.schedule
    decreases |steps|
  {
    if steps != [] {
      hide Next, Enabled;
      StepHolds(cfg, w, steps[0], r);
      HeldUntilDue(cfg, Next(cfg, w, steps[0]), steps[1..], r);
    }
  }

  lemma {:induction false} DueLeaves(schedule: seq<Retry>, now: real, r: Retry)
    requires r in schedule && Due(r, now)
    ensures r !in PendingOf(schedule, now) && r in DueOf(schedule, now)
  {
    DueAreListed(schedule, now);
    var rest, last := schedule[..|schedule| - 1], schedule[|schedule| - 1];
    if r in rest {
      DueLeaves(rest, now, r);
    }
  }

  lemma {:induction false} UnshiftedHolds(due: seq<Retry>, q: seq<Queued>, r: Retry, x: Queued)
    requires r in due && x in r.items
    ensures x in Unshifted(due, q)
  {
    var rest, last := due[..|due| - 1], due[|due| - 1];
    if r != last {
      UnshiftedHolds(rest, q, r, x);
    }
  }

  /** A flush that reads a clock past its time takes a retry out of the schedule and puts its items in the queue. */
  lemma DueIsQueued(cfg: Config, w: World, r: Retry, now: real)
    requires r in w.client.schedule && Due(r, now)
    ensures var c := Next(cfg, w, DrainDue(now)).client;
            r !in c.schedule && forall x :: x in r.items ==> x in c.queue
  {
    DueLeaves(w.client.schedule, now, r);
    forall x | x in r.items ensures x in Next(cfg, w, DrainDue(now)).client.queue {
      UnshiftedHolds(DueOf(w.client.schedule, now), w.client.queue, r, x);
    }
  }

  /** The instants that no clock reaches. */
  predicate Unreachable(t: F64) {
    t.NaN? || t.PlusInfinity?
  }

  ghost predicate Stuck(cfg: Config, w: World, r: Retry) {
    forall steps :: LegalRun(cfg, w, steps) ==> r in Run(cfg, w, steps).client.schedule
  }

  /** A retry stays in the schedule in every continuation exactly when no clock reaches its instant. */
  lemma StuckExactly(cfg: Config, w: World, r: Retry)
    requires r in w.client.schedule
    ensures Stuck(cfg, w, r) <==> Unreachable(r.notBefore)
  {
    if Unreachable(r.notBefore) {
      forall steps | LegalRun(cfg, w, steps) ensures r in Run(cfg, w, steps).client.schedule {
        HeldUntilDue(cfg, w, steps, r);
      }
    } else {
      LeavesWhenDue(cfg, w, r);
    }
  }

  lemma LeavesWhenDue(cfg: Config, w: World, r: Retry)
    requires r in w.client.schedule && !Unreachable(r.notBefore)
    ensures exists steps :: LegalRun(cfg, w, steps) && r !in Run(cfg, w, steps).client.schedule
  {
    var now := if r.notBefore.Number? then r.notBefore.x else 0.0;
    var step := DrainDue(now);
    DueIsQueued(cfg, w, r, now);
    assert [step][1..] == [] && Enabled(w, step);
    hide Next;
    assert LegalRun(cfg, Next(cfg, w, step), []);
    assert LegalRun(cfg, w, [step]) && Run(cfg, w, [step]) == Next(cfg, w, step);
  }

  /** What a Retry-After must parse to for its batch never to be due: NaN, as a date does, or too long a wait. */
  predicate NeverDue(at: real, seconds: F64) {
    seconds.NaN? || seconds.PlusInfinity?
    || (seconds.Number? &&
          var ms := seconds.x * 1000.0;
          ms >= F64_OVERFLOW || (ms > -F64_OVERFLOW && at + ms >= F64_OVERFLOW))
  }

  /** A batch that failed with a Retry-After, and has retries left, is stuck exactly when the header says so. */
  lemma HeaderSticksExactly(cfg: Config, w: World, i: nat, at: real, seconds: F64)
    requires i < |w.flying| && Retried(w.flying[i], cfg.maxRetries) != []
    ensures var retries := Retried(w.flying[i], cfg.maxRetries);
            var (w', r) := (Next(cfg, w, Answered(i, Failed(at, Some(seconds)))),
                            Retry(retries, NotBefore(at, Some(seconds), retries)));
            r in w'.client.schedule && (Stuck(cfg, w', r) <==> NeverDue(at, seconds))
  {
    var retries := Retried(w.flying[i], cfg.maxRetries);
    var r := Retry(retries, NotBefore(at, Some(seconds), retries));
    var w' := Next(cfg, w, Answered(i, Failed(at, Some(seconds))));
    assert w'.client.schedule[|w'.client.schedule| - 1] == r;
    OverflowPositive();
    assert Unreachable(r.notBefore) <==> NeverDue(at, seconds);
    hide NotBefore, Next, Stuck;
    StuckExactly(cfg, w', r);
  }

  lemma OverflowPositive()
    ensures F64_OVERFLOW > 0.0
  {
    Pow2Grows(970, 1024);
  }

  lemma {:induction false} Pow2Grows(n: nat, m: nat)
    requires n < m
    ensures Pow2(n) < Pow2(m)
    decreases m
  {
    if n < m - 1 {
      Pow2Grows(n, m - 1);
    } else {
      Pow2Positive(n);
    }
  }

  lemma {:induction false} Pow2Positive(n: nat)
    ensures Pow2(n) >= 1
  {
    if n > 0 {
      Pow2Positive(n - 1);
    }
  }

  /** A date in the header keeps the batch in the schedule in every continuation: neither sent nor reported. */
  lemma DateIsForever(cfg: Config, w: World, i: nat, at: real, steps: seq<Step>)
    requires i < |w.flying| && Retried(w.flying[i], cfg.maxRetries) != []
    requires LegalRun(cfg, Next(cfg, w, Answered(i, Failed(at, Some(NaN)))), steps)
    ensures Retry(Retried(w.flying[i], cfg.maxRetries), NaN)
            in Run(cfg, Next(cfg, w, Answered(i, Failed(at, Some(NaN)))), steps).client.schedule
  {
    HeaderSticksExactly(cfg, w, i, at, NaN);
  }

  // ---------------------------------------------------------------- the loop of one flush

  /** The steps of a flush with nothing in between. */
  function FlushSteps(cfg: Config, c: Client, answers: nat -> Answer, k: nat): seq<Step>
    requires cfg.batchSize >= 1
    decreases |c.queue|
  {
    if c.queue == [] then []
    else
      var n := Min(cfg.batchSize, |c.queue|);
      var c' := Settle(cfg, c.(queue := c.queue[n..]), c.queue[..n], answers(k));
      [Take] + ([Answered(0, answers(k))] + if answers(k).NoToken? then [] else FlushSteps(cfg, c', answers, k + 1))
  }

  lemma TwoSteps(cfg: Config, w: World, a: Step, b: Step, rest: seq<Step>)
    requires Enabled(w, a) && Enabled(Next(cfg, w, a), b)
    requires LegalRun(cfg, Next(cfg, Next(cfg, w, a), b), rest)
    ensures LegalRun(cfg, w, [a] + ([b] + rest))
    ensures Run(cfg, w, [a] + ([b] + rest)) == Run(cfg, Next(cfg, Next(cfg, w, a), b), rest)
  {
    hide Next, Enabled;
    var tail := [b] + rest;
    assert tail[0] == b && tail[1..] == rest;
    assert ([a] + tail)[0] == a && ([a] + tail)[1..] == tail;
  }

  /** What the flush method computes is one of the runs above. */
  lemma {:induction false} FlushIsRun(cfg: Config, w: World, answers: nat -> Answer, k: nat)
    requires cfg.batchSize >= 1 && w.flying == []
    ensures LegalRun(cfg, w, FlushSteps(cfg, w.client, answers, k))
    ensures Run(cfg, w, FlushSteps(cfg, w.client, answers, k)).client == SendAll(cfg, w.client, answers, k)
    decreases |w.client.queue|
  {
    var c := w.client;
    if c.queue != [] {
      var n := Min(cfg.batchSize, |c.queue|);
      var sent := c.(queue := c.queue[n..]);
      SettleKeepsQueue(cfg, sent, c.queue[..n], answers(k));
      var w1 := Next(cfg, w, Take);
      assert w1.flying == [c.queue[..n]] && w1.client == sent;
      var w2 := Next(cfg, w1, Answered(0, answers(k)));
      assert w2.flying == [] && w2.client == Settle(cfg, sent, c.queue[..n], answers(k));
      hide Settle, Removed;
      var rest := if answers(k).NoToken? then [] else FlushSteps(cfg, w2.client, answers, k + 1);
      if !answers(k).NoToken? {
        FlushIsRun(cfg, w2, answers, k + 1);
      }
      TwoSteps(cfg, w, Take, Answered(0, answers(k)), rest);
    }
  }
}
