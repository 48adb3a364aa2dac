/**
 * What becomes of each event, from the answers alone: under every interleaving an event ends in the way that the
 * answer to a batch that held it says, and only so. A failed batch is due again after its Retry-After or its backoff,
 * retries that are due go in front of the queue, and a flush sends the queue in batches of the batch size.
 */
module SdkFates {
  import opened Common
  import opened Sdk
  import opened SdkRuns
  import opened SdkRetries

  datatype End = Delivered | Overflowed | Abandoned | Rejected | Lost | Beaconed

  function Tally(f: Fates, end: End): multiset<Event> {
    match end
    case Delivered => f.delivered
    case Overflowed => f.overflowed
    case Abandoned => f.abandoned
    case Rejected => f.refused
    case Lost => f.lost
    case Beaconed => f.beaconed
  }

  ghost predicate Holds(items: seq<Queued>, e: Event) {
    exists k :: 0 <= k < |items| && items[k].event == e
  }

  /**
   * The step ends the event in this way: a track drops what is not among the newest of a full queue, an answer or
   * the end of a beacon settles what was sent, a failure what was sent as often as it may be.
   */
  ghost predicate Ends(cfg: Config, w: World, step: Step, e: Event, end: End)
    requires Enabled(w, step)
  {
    var q := w.client.queue;
    match step
    case Track(_) =>
      end == Overflowed && exists k :: 0 <= k < |q| && q[k].event == e && |q| - k >= Max(cfg.maxQueueSize, 1)
    case Answered(i, Acked) => Holds(w.flying[i], e) && end == Delivered
    case Answered(i, Refused) => Holds(w.flying[i], e) && end == Rejected
    case Answered(i, NoToken) => Holds(w.flying[i], e) && end == Lost
    case Answered(i, Failed(_, _)) =>
      Holds(w.flying[i], e) && end == Abandoned && w.attempts[e] >= Max(cfg.maxRetries, 1)
    case BeaconEnds(i, delivered) => Holds(w.beacons[i], e) && end == if delivered then Delivered else Beaconed
    case _ => false
  }

  ghost predicate SomeStepEnds(cfg: Config, w: World, steps: seq<Step>, e: Event, end: End)
    requires LegalRun(cfg, w, steps)
    decreases |steps|
  {
    steps != [] &&
      (Ends(cfg, w, steps[0], e, end) || SomeStepEnds(cfg, Next(cfg, w, steps[0]), steps[1..], e, end))
  }

  lemma CountHolds(items: seq<Queued>, e: Event)
    ensures Count(items, e) > 0 <==> Holds(items, e)
  {
    if Count(items, e) > 0 {
      assert e in Events(items);
      var k :| 0 <= k < |items| && Events(items)[k] == e;
      assert items[k].event == e;
    }
    if Holds(items, e) {
      var k :| 0 <= k < |items| && items[k].event == e;
      CountMember(items, k);
    }
  }

  lemma DroppedExactly(size: nat, maxSize: nat, k: nat)
    requires k < size
    ensures k < Excess(size, maxSize) <==> size - k >= Max(maxSize, 1)
  {
  }

  lemma DroppedAreOldest(q: seq<Queued>, maxSize: nat, e: Event)
    ensures Count(q[..Excess(|q|, maxSize)], e) > 0
       <==> exists k :: 0 <= k < |q| && q[k].event == e && |q| - k >= Max(maxSize, 1)
  {
    var n := Excess(|q|, maxSize);
    CountHolds(q[..n], e);
    hide Count;
    hide Excess, Max;
    if Holds(q[..n], e) {
      var k :| 0 <= k < n && q[..n][k].event == e;
      DroppedExactly(|q|, maxSize, k);
      assert q[k].event == e;
    }
    if k :| 0 <= k < |q| && q[k].event == e && |q| - k >= Max(maxSize, 1) {
      DroppedExactly(|q|, maxSize, k);
      assert q[..n][k].event == e;
    }
  }

  lemma {:induction false} GivenUpExactly(items: seq<Queued>, maxRetries: nat, e: Event)
    ensures Count(GivenUp(items, maxRetries), e) > 0
       <==> exists k :: 0 <= k < |items| && items[k].event == e && items[k].retryCount + 1 >= maxRetries
  {
    if items == [] {
      CountNone(e);
    } else {
      var rest, r := items[..|items| - 1], items[|items| - 1];
      GivenUpExactly(rest, maxRetries, e);
      CountConcat(GivenUp(rest, maxRetries), [r], e);
      CountOne(r, e);
      assert GivenUp(rest, maxRetries) + [] == GivenUp(rest, maxRetries);
      hide Count;
      assert forall k :: 0 <= k < |rest| ==> rest[k] == items[k];
    }
  }

  lemma SpentExactly(cfg: Config, attempts: multiset<Event>, items: seq<Queued>, e: Event)
    requires CountsOk(cfg, attempts, items, 1)
    ensures Count(GivenUp(items, cfg.maxRetries), e) > 0
       <==> Holds(items, e) && attempts[e] >= Max(cfg.maxRetries, 1)
  {
    GivenUpExactly(items, cfg.maxRetries, e);
    hide GivenUp, Count;
    if Holds(items, e) {
      var k :| 0 <= k < |items| && items[k].event == e;
      assert attempts[e] == items[k].retryCount + 1;
    }
  }

  lemma TrackEnds(cfg: Config, w: World, t: Event, e: Event, end: End)
    requires Enabled(w, Step.Track(t))
    ensures Tally(Next(cfg, w, Step.Track(t)).client.fates, end)[e] > 0
       <==> Tally(w.client.fates, end)[e] > 0 || Ends(cfg, w, Step.Track(t), e, end)
  {
    DroppedAreOldest(w.client.queue, cfg.maxQueueSize, e);
    hide Events, Excess, Enqueued, Max;
  }

  lemma AnswerEnds(cfg: Config, w: World, i: nat, a: Answer, e: Event, end: End)
    requires i < |w.flying| && CountsOk(cfg, w.attempts, w.flying[i], 1)
    ensures Tally(Next(cfg, w, Answered(i, a)).client.fates, end)[e] > 0
       <==> Tally(w.client.fates, end)[e] > 0 || Ends(cfg, w, Answered(i, a), e, end)
  {
    if a.Failed? {
      SpentExactly(cfg, w.attempts, w.flying[i], e);
      hide Events, CountsOk, GivenUp, Retried, NotBefore, Max, Holds;
    } else {
      CountHolds(w.flying[i], e);
      hide Events, CountsOk, GivenUp, Retried, NotBefore, Max, Holds;
    }
  }

  lemma BeaconEndsExactly(cfg: Config, w: World, i: nat, delivered: bool, e: Event, end: End)
    requires i < |w.beacons|
    ensures Tally(Next(cfg, w, BeaconEnds(i, delivered)).client.fates, end)[e] > 0
       <==> Tally(w.client.fates, end)[e] > 0 || Ends(cfg, w, BeaconEnds(i, delivered), e, end)
  {
    CountHolds(w.beacons[i], e);
    hide Events, Holds;
  }

  lemma StepEnds(cfg: Config, w: World, step: Step, e: Event, end: End)
    requires Enabled(w, step) && Attempted(cfg, w)
    ensures Tally(Next(cfg, w, step).client.fates, end)[e] > 0
       <==> Tally(w.client.fates, end)[e] > 0 || Ends(cfg, w, step, e, end)
  {
    match step
    case Track(t) => hide *; TrackEnds(cfg, w, t, e, end);
    case Answered(i, a) =>
      assert i < |w.flying| && CountsOk(cfg, w.attempts, w.flying[i], 1);
      hide *;
      AnswerEnds(cfg, w, i, a, e, end);
    case BeaconEnds(i, delivered) =>
      assert i < |w.beacons|;
      hide *;
      BeaconEndsExactly(cfg, w, i, delivered, e, end);
    case _ => hide Events, CountsOk, Attempted;
  }

  lemma {:induction false} RunEnds(cfg: Config, w: World, steps: seq<Step>, e: Event, end: End)
    requires LegalRun(cfg, w, steps) && Attempted(cfg, w) && OnePlace(w)
    ensures Tally(Run(cfg, w, steps).client.fates, end)[e] > 0
       <==> Tally(w.client.fates, end)[e] > 0 || SomeStepEnds(cfg, w, steps, e, end)
    decreases |steps|
  {
    if steps != [] {
      hide Attempted, OnePlace, Next, Enabled, Ends, Tally;
      StepEnds(cfg, w, steps[0], e, end);
      StepKeepsCounts(cfg, w, steps[0]);
      StepKeepsOnePlace(cfg, w, steps[0]);
      RunEnds(cfg, Next(cfg, w, steps[0]), steps[1..], e, end);
    }
  }

  /** Under every interleaving an event has an end exactly when some step of the run gave it that end. */
  lemma EndsExactly(cfg: Config, steps: seq<Step>, e: Event, end: End)
    requires LegalRun(cfg, NewWorld, steps)
    ensures Tally(Run(cfg, NewWorld, steps).client.fates, end)[e] > 0
       <==> SomeStepEnds(cfg, NewWorld, steps, e, end)
  {
    NothingYet();
    RunEnds(cfg, NewWorld, steps, e, end);
  }

  lemma NothingYet()
    ensures OnePlace(NewWorld) && forall cfg :: Attempted(cfg, NewWorld)
  {
    forall f ensures Places(NewWorld, f) == 0 { CountNone(f); }
  }

  // ---------------------------------------------------------------- when a failed batch is due again

  /** The wait doubles from 200 milliseconds with each attempt, up to 30 seconds. */
  lemma {:induction false} BackoffDoubles(attempt: nat)
    ensures Backoff(0) == 200 && Backoff(attempt + 1) == Min(2 * Backoff(attempt), 30_000)
  {
  }

  /** Without a Retry-After the batch is due after the wait of its least tried item. */
  ghost predicate DueAfterBackoff(attempts: multiset<Event>, r: Retry, at: real) {
    exists k :: 0 <= k < |r.items| && LeastTried(attempts, r.items, k)
                && r.notBefore == ToF64(at + Min(100 * Pow2(attempts[r.items[k].event]), 30_000) as real)
  }

  ghost predicate LeastTried(attempts: multiset<Event>, items: seq<Queued>, k: nat) {
    k < |items| && forall j :: 0 <= j < |items| ==> attempts[items[k].event] <= attempts[items[j].event]
  }

  /**
   * In every reachable world a failure schedules exactly the events of the batch that may be sent again, as one
   * group, due after the seconds of the Retry-After or the backoff.
   */
  lemma FailureReschedules(cfg: Config, w: World, i: nat, at: real, retryAfter: Option<F64>)
    requires Attempted(cfg, w) && i < |w.flying|
    ensures var schedule := Next(cfg, w, Answered(i, Failed(at, retryAfter))).client.schedule;
            if forall e :: Holds(w.flying[i], e) ==> w.attempts[e] >= Max(cfg.maxRetries, 1) then
              schedule == w.client.schedule
            else
              && schedule != [] && schedule[..|schedule| - 1] == w.client.schedule
              && var r := schedule[|schedule| - 1];
                 && (forall e :: Holds(r.items, e)
                                 <==> Holds(w.flying[i], e) && w.attempts[e] < Max(cfg.maxRetries, 1))
                 && (retryAfter.None? ==> DueAfterBackoff(w.attempts, r, at))
                 && (retryAfter.Some? && retryAfter.value.Number?
                     && -F64_OVERFLOW < retryAfter.value.x * 1000.0 < F64_OVERFLOW ==>
                       r.notBefore == ToF64(at + retryAfter.value.x * 1000.0))
  {
    var items := w.flying[i];
    var retries := Retried(items, cfg.maxRetries);
    RetriedCounts(cfg, w.attempts, items);
    forall e ensures Holds(retries, e) <==> Holds(items, e) && w.attempts[e] < Max(cfg.maxRetries, 1) {
      RetriedExactly(cfg, w.attempts, items, e);
    }
    if retries == [] {
      assert forall e :: !Holds(retries, e);
    } else {
      assert Holds(retries, retries[0].event);
      DueAt(cfg, w.attempts, retries, at, retryAfter);
    }
    hide Retried, GivenUp, CountsOk, NotBefore, DueAfterBackoff, Holds, Attempted, Max, ToF64;
  }

  lemma DueAt(cfg: Config, attempts: multiset<Event>, retries: seq<Queued>, at: real, retryAfter: Option<F64>)
    requires CountsOk(cfg, attempts, retries, 0) && retries != []
    requires forall i :: 0 <= i < |retries| ==> 1 <= retries[i].retryCount
    ensures var r := Retry(retries, NotBefore(at, retryAfter, retries));
            && (retryAfter.None? ==> DueAfterBackoff(attempts, r, at))
            && (retryAfter.Some? && retryAfter.value.Number?
                && -F64_OVERFLOW < retryAfter.value.x * 1000.0 < F64_OVERFLOW ==>
                  r.notBefore == ToF64(at + retryAfter.value.x * 1000.0))
  {
    if retryAfter.None? {
      BackoffOfLeast(cfg, attempts, retries, at);
    }
    hide CountsOk, Backoff, LeastRetries, DueAfterBackoff;
  }

  lemma {:induction false} RetriedExactly(cfg: Config, attempts: multiset<Event>, items: seq<Queued>, e: Event)
    requires CountsOk(cfg, attempts, items, 1)
    ensures Holds(Retried(items, cfg.maxRetries), e)
       <==> Holds(items, e) && attempts[e] < Max(cfg.maxRetries, 1)
  {
    if items != [] {
      var rest, r := items[..|items| - 1], items[|items| - 1];
      RetriedExactly(cfg, attempts, rest, e);
      assert attempts[r.event] == r.retryCount + 1;
      HoldsSnoc(rest, r, e);
      assert items == rest + [r];
      HoldsSnoc(Retried(rest, cfg.maxRetries), Queued(r.event, r.retryCount + 1), e);
      assert Retried(rest, cfg.maxRetries) + [] == Retried(rest, cfg.maxRetries);
      hide Holds;
    }
  }

  lemma HoldsSnoc(items: seq<Queued>, x: Queued, e: Event)
    ensures Holds(items + [x], e) <==> Holds(items, e) || x.event == e
  {
    assert (items + [x])[|items|] == x;
    assert forall k :: 0 <= k < |items| ==> (items + [x])[k] == items[k];
  }

  lemma BackoffOfLeast(cfg: Config, attempts: multiset<Event>, retries: seq<Queued>, at: real)
    requires CountsOk(cfg, attempts, retries, 0) && retries != []
    requires forall i :: 0 <= i < |retries| ==> 1 <= retries[i].retryCount
    ensures DueAfterBackoff(attempts, Retry(retries, NotBefore(at, None, retries)), at)
  {
    var m := LeastRetries(retries);
    var k :| 0 <= k < |retries| && retries[k].retryCount == m;
    assert attempts[retries[k].event] == m && m >= 1;
    assert Pow2(m) == 2 * Pow2(m - 1);
    forall j | 0 <= j < |retries| ensures m <= attempts[retries[j].event] {
    }
    assert LeastTried(attempts, retries, k);
  }

  // ---------------------------------------------------------------- the order of what is sent

  ghost predicate EndsWith<T>(whole: seq<T>, part: seq<T>) {
    |part| <= |whole| && whole[|whole| - |part|..] == part
  }

  lemma InFront<T>(front: seq<T>, whole: seq<T>, part: seq<T>)
    requires EndsWith(whole, part)
    ensures EndsWith(front + whole, part)
  {
  }

  lemma {:induction false} QueueComesLast(due: seq<Retry>, q: seq<Queued>)
    ensures EndsWith(Unshifted(due, q), q)
  {
    if due != [] {
      var rest := due[..|due| - 1];
      QueueComesLast(rest, q);
      hide EndsWith;
      InFront(due[|due| - 1].items, Unshifted(rest, q), q);
    }
  }

  lemma UnshiftOne(due: seq<Retry>, r: Retry, q: seq<Queued>)
    ensures Unshifted(due + [r], q) == r.items + Unshifted(due, q)
  {
    assert (due + [r])[..|due|] == due;
  }

  lemma {:induction false} GroupInFront(schedule: seq<Retry>, now: real, q: seq<Queued>, i: nat)
    requires i < |schedule| && Due(schedule[i], now)
    ensures EndsWith(Unshifted(DueOf(schedule, now), q), schedule[i].items + Unshifted(DueOf(schedule[..i], now), q))
    decreases |schedule|
  {
    var n := |schedule| - 1;
    var rest, r := schedule[..n], schedule[n];
    var due := DueOf(rest, now);
    assert DueOf(schedule, now) == if Due(r, now) then due + [r] else due;
    UnshiftOne(due, r, q);
    hide Due, DueOf, Unshifted;
    if i < n {
      GroupInFront(rest, now, q, i);
      assert rest[..i] == schedule[..i];
      hide EndsWith;
      InFront(r.items, Unshifted(due, q), schedule[i].items + Unshifted(DueOf(schedule[..i], now), q));
    }
  }

  /** Of two groups that are due the later scheduled comes first, and both come before what was queued. */
  lemma RetriesGoFirst(c: Client, now: real, i: nat, j: nat) returns (later: seq<Queued>, last: seq<Queued>)
    requires i < j < |c.schedule| && Due(c.schedule[i], now) && Due(c.schedule[j], now)
    ensures EndsWith(Sdk.DrainDue(c, now).queue, c.schedule[j].items + later)
    ensures EndsWith(later, c.schedule[i].items + last) && EndsWith(last, c.queue)
  {
    var s := c.schedule;
    assert Sdk.DrainDue(c, now).queue == Unshifted(DueOf(s, now), c.queue);
    assert s[..j][i] == s[i] && s[..j][..i] == s[..i];
    hide *;
    GroupInFront(s, now, c.queue, j);
    GroupInFront(s[..j], now, c.queue, i);
    QueueComesLast(DueOf(s[..i], now), c.queue);
    later := Unshifted(DueOf(s[..j], now), c.queue);
    last := Unshifted(DueOf(s[..i], now), c.queue);
  }

  /** What stays scheduled keeps its order. */
  lemma {:induction false} PendingKeepsOrder(schedule: seq<Retry>, now: real, i: nat, j: nat)
    requires i < j < |PendingOf(schedule, now)|
    ensures exists k, l :: 0 <= k < l < |schedule| && schedule[k] == PendingOf(schedule, now)[i]
                           && schedule[l] == PendingOf(schedule, now)[j]
  {
    var n := |schedule| - 1;
    var rest, r := schedule[..n], schedule[n];
    var pending := PendingOf(rest, now);
    hide Due;
    if j < |pending| {
      PendingKeepsOrder(rest, now, i, j);
      var k, l :| 0 <= k < l < |rest| && rest[k] == pending[i] && rest[l] == pending[j];
      assert schedule[k] == rest[k] && schedule[l] == rest[l];
    } else {
      DueAreListed(rest, now);
      var k :| 0 <= k < |rest| && rest[k] == pending[i];
      assert schedule[k] == pending[i] && schedule[n] == r;
    }
  }

  // ---------------------------------------------------------------- the batches of a flush

  function Start(size: nat, i: nat): nat {
    i * size
  }

  /** The i-th batch of a flush of the queue. */
  function Chunk(q: seq<Queued>, size: nat, i: nat): seq<Queued>
    requires Start(size, i) <= |q|
  {
    q[Start(size, i)..Min(Start(size, i) + size, |q|)]
  }

  lemma LaterChunk(q: seq<Queued>, size: nat, i: nat)
    requires size >= 1 && i >= 1 && Start(size, i) < |q|
    ensures size < |q| && Start(size, i - 1) < |q[size..]|
    ensures Chunk(q[size..], size, i - 1) == Chunk(q, size, i)
  {
    assert (i - 1) * size + size == i * size;
    assert size <= i * size;
  }

  /** The first batch of a flush and its answer. */
  lemma FirstBatch(cfg: Config, w: World, answers: nat -> Answer, k: nat)
    requires cfg.batchSize >= 1 && w.flying == [] && w.client.queue != []
    ensures var (c, n) := (w.client, Min(cfg.batchSize, |w.client.queue|));
            var w1 := Next(cfg, w, Take);
            && w1.flying == [c.queue[..n]] && Enabled(w1, Answered(0, answers(k)))
            && var w2 := Next(cfg, w1, Answered(0, answers(k)));
               && w2.flying == [] && w2.client.queue == c.queue[n..]
               && FlushSteps(cfg, c, answers, k)
                  == [Take] + ([Answered(0, answers(k))]
                               + if answers(k).NoToken? then [] else FlushSteps(cfg, w2.client, answers, k + 1))
  {
    var c, n := w.client, Min(cfg.batchSize, |w.client.queue|);
    SettleKeepsQueue(cfg, c.(queue := c.queue[n..]), c.queue[..n], answers(k));
    hide Settle;
    assert Next(cfg, w, Take).flying == [c.queue[..n]];
    assert Next(cfg, Next(cfg, w, Take), Answered(0, answers(k))).flying == [];
  }

  lemma OneStep(cfg: Config, w: World, step: Step)
    requires Enabled(w, step)
    ensures LegalRun(cfg, w, [step]) && Run(cfg, w, [step]) == Next(cfg, w, step)
  {
    hide Next, Enabled;
    assert [step][1..] == [];
    assert LegalRun(cfg, Next(cfg, w, step), []);
  }

  lemma TwoInFront<T>(a: T, b: T, rest: seq<T>, n: nat)
    requires n <= |rest|
    ensures |[a] + ([b] + rest)| == |rest| + 2 && ([a] + ([b] + rest))[..n + 2] == [a] + ([b] + rest[..n])
  {
  }

  lemma FirstChunk(q: seq<Queued>, size: nat)
    ensures Start(size, 0) == 0 && Chunk(q, size, 0) == q[..Min(size, |q|)]
  {
  }

  /** After i batches have been answered, the next one to fly is the i-th part of the queue. */
  ghost predicate SendsChunk(cfg: Config, w: World, answers: nat -> Answer, k: nat, i: nat)
    requires cfg.batchSize >= 1 && Start(cfg.batchSize, i) <= |w.client.queue|
  {
    var steps := FlushSteps(cfg, w.client, answers, k);
    && 2 * i + 1 <= |steps| && LegalRun(cfg, w, steps[..2 * i + 1])
    && Run(cfg, w, steps[..2 * i + 1]).flying == [Chunk(w.client.queue, cfg.batchSize, i)]
  }

  lemma SendsFirst(cfg: Config, w: World, answers: nat -> Answer, k: nat)
    requires cfg.batchSize >= 1 && w.flying == [] && w.client.queue != []
    ensures Start(cfg.batchSize, 0) == 0 && SendsChunk(cfg, w, answers, k, 0)
  {
    assert Enabled(w, Take);
    FirstBatch(cfg, w, answers, k);
    hide Next, Enabled, FlushSteps, Chunk;
    OneStep(cfg, w, Take);
    FirstChunk(w.client.queue, cfg.batchSize);
    assert FlushSteps(cfg, w.client, answers, k)[..1] == [Take];
  }

  lemma SendsNext(cfg: Config, w: World, w2: World, answers: nat -> Answer, k: nat, i: nat)
    requires cfg.batchSize >= 1 && w.flying == [] && i >= 1 && Start(cfg.batchSize, i) < |w.client.queue|
    requires !answers(k).NoToken?
    requires Enabled(w, Take) && Enabled(Next(cfg, w, Take), Answered(0, answers(k)))
    requires w2 == Next(cfg, Next(cfg, w, Take), Answered(0, answers(k)))
    requires Start(cfg.batchSize, i - 1) <= |w2.client.queue|
    requires SendsChunk(cfg, w2, answers, k + 1, i - 1)
    ensures SendsChunk(cfg, w, answers, k, i)
  {
    FirstBatch(cfg, w, answers, k);
    LaterChunk(w.client.queue, cfg.batchSize, i);
    var rest := FlushSteps(cfg, w2.client, answers, k + 1);
    assert 2 * (i - 1) + 1 == 2 * i - 1 && 2 * i - 1 + 2 == 2 * i + 1;
    var part := rest[..2 * i - 1];
    hide Next, Enabled, FlushSteps, Chunk, Start, Run, LegalRun, Min;
    TwoInFront(Take, Answered(0, answers(k)), rest, 2 * i - 1);
    TwoSteps(cfg, w, Take, Answered(0, answers(k)), part);
    assert FlushSteps(cfg, w.client, answers, k)[..2 * i + 1] == [Take] + ([Answered(0, answers(k))] + part);
  }

  /** A flush sends the queue from the front, each batch as large as the batch size and the queue allow. */
  lemma {:induction false} BatchesAreChunks(cfg: Config, w: World, answers: nat -> Answer, k: nat, i: nat)
    requires cfg.batchSize >= 1 && w.flying == [] && Start(cfg.batchSize, i) < |w.client.queue|
    requires forall j :: k <= j < k + i ==> !answers(j).NoToken?
    ensures SendsChunk(cfg, w, answers, k, i)
    decreases i
  {
    if i == 0 {
      SendsFirst(cfg, w, answers, k);
    } else {
      assert Enabled(w, Take);
      FirstBatch(cfg, w, answers, k);
      LaterChunk(w.client.queue, cfg.batchSize, i);
      var w2 := Next(cfg, Next(cfg, w, Take), Answered(0, answers(k)));
      assert w2.flying == [] && Start(cfg.batchSize, i - 1) < |w2.client.queue|;
      hide *;
      BatchesAreChunks(cfg, w2, answers, k + 1, i - 1);
      SendsNext(cfg, w, w2, answers, k, i);
    }
  }

  // ---------------------------------------------------------------- the last send

  /** A beacon takes everything that is queued or due, and leaves exactly what is not due. */
  lemma BeaconTakesDue(cfg: Config, w: World, now: real, e: Event)
    ensures var w' := Next(cfg, w, Beacon(now));
            && w'.client.queue == [] && |w'.beacons| == |w.beacons| + 1
            && (forall i :: 0 <= i < |w'.client.schedule| ==> !Due(w'.client.schedule[i], now))
            && (forall r :: r in w.client.schedule && Due(r, now) && Holds(r.items, e) ==>
                  Holds(w'.beacons[|w.beacons|], e))
            && (Holds(w.client.queue, e) ==> Holds(w'.beacons[|w.beacons|], e))
  {
    var (c, due) := (w.client, DueOf(w.client.schedule, now));
    DueAreListed(c.schedule, now);
    QueueComesLast(due, c.queue);
    var all := Unshifted(due, c.queue);
    assert Next(cfg, w, Beacon(now)).beacons[|w.beacons|] == all;
    forall r | r in c.schedule && Due(r, now) && Holds(r.items, e) ensures Holds(all, e) {
      var i :| 0 <= i < |c.schedule| && c.schedule[i] == r;
      GroupInFront(c.schedule, now, c.queue, i);
      HoldsBehind(all, r.items, Unshifted(DueOf(c.schedule[..i], now), c.queue), e);
    }
    if Holds(c.queue, e) {
      assert c.queue == c.queue + [];
      HoldsBehind(all, c.queue, [], e);
    }
    hide Holds, Unshifted, Due, DueOf, EndsWith;
  }

  lemma HoldsBehind(whole: seq<Queued>, part: seq<Queued>, rest: seq<Queued>, e: Event)
    requires EndsWith(whole, part + rest) && Holds(part, e)
    ensures Holds(whole, e)
  {
    var k :| 0 <= k < |part| && part[k].event == e;
    var n := |whole| - |part + rest|;
    assert whole[n..][k] == (part + rest)[k] == part[k];
    assert whole[n + k] == part[k];
  }

  /** What the unload method computes is a beacon and its end. */
  lemma UnloadIsRun(cfg: Config, w: World, now: real, delivered: bool)
    ensures var w1 := Next(cfg, w, Beacon(now));
            && Enabled(w1, BeaconEnds(|w.beacons|, delivered))
            && Next(cfg, w1, BeaconEnds(|w.beacons|, delivered)).client == Unload(w.client, now, delivered)
            && Next(cfg, w1, BeaconEnds(|w.beacons|, delivered)).beacons == w.beacons
  {
    hide Sdk.DrainDue, EndBeacon;
  }
}
