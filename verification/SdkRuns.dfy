/**
 * The client under every interleaving of its asynchronous parts. A step is what runs between two awaits: several
 * flush loops may be under way at once, each waiting for the answer to one batch, while events are tracked and
 * the page may be unloading. Event ids are fresh.
 */
module SdkRuns {
  import opened Common
  import opened Sdk

  /** `attempts` counts the batches sent that held an event. */
  datatype World = World(client: Client, flying: seq<seq<Queued>>, beacons: seq<seq<Queued>>,
                         tracked: set<Event>, attempts: multiset<Event>)

  datatype Step = Track(e: Event) | DrainDue(now: real) | Take | Answered(i: nat, a: Answer)
                | Beacon(now: real) | BeaconEnds(i: nat, delivered: bool)

  const NewWorld := World(NewClient, [], [], {}, multiset{})

  function Removed<T>(s: seq<T>, i: nat): seq<T>
    requires i < |s|
  {
    s[..i] + s[i + 1..]
  }

  ghost predicate Enabled(w: World, step: Step) {
    match step
    case Track(e) => forall f :: f in w.tracked ==> f.id != e.id
    case Take => w.client.queue != []
    case Answered(i, _) => i < |w.flying|
    case BeaconEnds(i, _) => i < |w.beacons|
    case _ => true
  }

  ghost function Next(cfg: Config, w: World, step: Step): World
    requires Enabled(w, step)
  {
    var c := w.client;
    match step
    case Track(e) => w.(client := Sdk.Track(cfg, c, e), tracked := w.tracked + {e})
    case DrainDue(now) => w.(client := Sdk.DrainDue(c, now))
    case Take =>
      var n := Min(cfg.batchSize, |c.queue|);
      w.(client := c.(queue := c.queue[n..]), flying := w.flying + [c.queue[..n]],
         attempts := w.attempts + Bag(c.queue[..n]))
    case Answered(i, a) => w.(client := Settle(cfg, c, w.flying[i], a), flying := Removed(w.flying, i))
    case Beacon(now) =>
      var drained := Sdk.DrainDue(c, now);
      w.(client := drained.(queue := []), beacons := w.beacons + [drained.queue])
    case BeaconEnds(i, delivered) =>
      w.(client := EndBeacon(c, w.beacons[i], delivered), beacons := Removed(w.beacons, i))
  }

  ghost predicate LegalRun(cfg: Config, w: World, steps: seq<Step>)
    decreases |steps|
  {
    steps == [] || (Enabled(w, steps[0]) && LegalRun(cfg, Next(cfg, w, steps[0]), steps[1..]))
  }

  ghost function Run(cfg: Config, w: World, steps: seq<Step>): World
    requires LegalRun(cfg, w, steps)
    decreases |steps|
  {
    if steps == [] then w else Run(cfg, Next(cfg, w, steps[0]), steps[1..])
  }

  // ---------------------------------------------------------------- where an event is

  function Count(items: seq<Queued>, e: Event): nat {
    Bag(items)[e]
  }

  function InBatches(batches: seq<seq<Queued>>, e: Event): nat {
    if batches == [] then 0 else InBatches(batches[..|batches| - 1], e) + Count(batches[|batches| - 1], e)
  }

  function InSchedule(schedule: seq<Retry>, e: Event): nat {
    if schedule == [] then 0 else InSchedule(schedule[..|schedule| - 1], e) + Count(schedule[|schedule| - 1].items, e)
  }

  function Ended(f: Fates, e: Event): nat {
    f.delivered[e] + f.overflowed[e] + f.abandoned[e] + f.refused[e] + f.lost[e] + f.beaconed[e]
  }

  /** In how many places the client holds an event, or has ended with it. */
  function Places(w: World, e: Event): nat {
    Count(w.client.queue, e) + InSchedule(w.client.schedule, e) + InBatches(w.flying, e) + InBatches(w.beacons, e)
    + Ended(w.client.fates, e)
  }

  lemma CountConcat(a: seq<Queued>, b: seq<Queued>, e: Event)
    ensures Count(a + b, e) == Count(a, e) + Count(b, e)
  {
    assert Events(a + b) == Events(a) + Events(b);
  }

  lemma CountSplit(a: seq<Queued>, n: nat, e: Event)
    requires n <= |a|
    ensures Count(a, e) == Count(a[..n], e) + Count(a[n..], e)
  {
    CountConcat(a[..n], a[n..], e);
    assert a[..n] + a[n..] == a;
  }

  lemma CountOne(x: Queued, e: Event)
    ensures Count([x], e) == if x.event == e then 1 else 0
  {
    assert Events([x]) == [x.event];
  }

  lemma CountNone(e: Event)
    ensures Count([], e) == 0
  {
    assert Events([]) == [];
  }

  lemma CountMember(items: seq<Queued>, i: nat)
    requires i < |items|
    ensures Count(items, items[i].event) >= 1
  {
    assert Events(items)[i] == items[i].event;
    assert items[i].event in multiset(Events(items));
  }

  lemma BatchesSnoc(batches: seq<seq<Queued>>, b: seq<Queued>, e: Event)
    ensures InBatches(batches + [b], e) == InBatches(batches, e) + Count(b, e)
  {
    assert (batches + [b])[..|batches|] == batches;
  }

  lemma {:induction false} BatchesRemoved(batches: seq<seq<Queued>>, i: nat, e: Event)
    requires i < |batches|
    ensures InBatches(batches, e) == InBatches(Removed(batches, i), e) + Count(batches[i], e)
  {
    hide Count;
    var n := |batches| - 1;
    if i < n {
      var rest, last := batches[..n], batches[n];
      BatchesRemoved(rest, i, e);
      assert Removed(batches, i) == Removed(rest, i) + [last];
      BatchesSnoc(Removed(rest, i), last, e);
    } else {
      assert Removed(batches, i) == batches[..n];
    }
  }

  lemma ScheduleSnoc(schedule: seq<Retry>, r: Retry, e: Event)
    ensures InSchedule(schedule + [r], e) == InSchedule(schedule, e) + Count(r.items, e)
  {
    assert (schedule + [r])[..|schedule|] == schedule;
  }

  lemma {:induction false} DueAndPending(schedule: seq<Retry>, now: real, e: Event)
    ensures InSchedule(schedule, e) == InSchedule(DueOf(schedule, now), e) + InSchedule(PendingOf(schedule, now), e)
  {
    if schedule != [] {
      var rest, r := schedule[..|schedule| - 1], schedule[|schedule| - 1];
      DueAndPending(rest, now, e);
      var due, pending := DueOf(rest, now), PendingOf(rest, now);
      assert DueOf(schedule, now) == if Due(r, now) then due + [r] else due;
      assert PendingOf(schedule, now) == if Due(r, now) then pending else pending + [r];
      ScheduleSnoc(due, r, e);
      ScheduleSnoc(pending, r, e);
      hide Count, Due, DueOf, PendingOf;
    }
  }

  lemma {:induction false} UnshiftedCount(due: seq<Retry>, q: seq<Queued>, e: Event)
    ensures Count(Unshifted(due, q), e) == InSchedule(due, e) + Count(q, e)
  {
    hide Count;
    if due != [] {
      var rest := due[..|due| - 1];
      UnshiftedCount(rest, q, e);
      CountConcat(due[|due| - 1].items, Unshifted(rest, q), e);
    }
  }

  lemma {:induction false} RetriedOrGivenUp(items: seq<Queued>, maxRetries: nat, e: Event)
    ensures Count(items, e) == Count(Retried(items, maxRetries), e) + Count(GivenUp(items, maxRetries), e)
  {
    hide Count;
    if items == [] {
      CountNone(e);
    } else {
      var rest, r := items[..|items| - 1], items[|items| - 1];
      RetriedOrGivenUp(rest, maxRetries, e);
      assert items == rest + [r];
      CountConcat(rest, [r], e);
      CountOne(r, e);
      CountOne(Queued(r.event, r.retryCount + 1), e);
      CountConcat(GivenUp(rest, maxRetries), [r], e);
      CountConcat(Retried(rest, maxRetries), [Queued(r.event, r.retryCount + 1)], e);
      assert Retried(rest, maxRetries) + [] == Retried(rest, maxRetries);
      assert GivenUp(rest, maxRetries) + [] == GivenUp(rest, maxRetries);
    }
  }

  lemma DrainKeepsPlaces(c: Client, now: real, e: Event)
    ensures Count(Sdk.DrainDue(c, now).queue, e) + InSchedule(Sdk.DrainDue(c, now).schedule, e)
         == Count(c.queue, e) + InSchedule(c.schedule, e)
  {
    DueAndPending(c.schedule, now, e);
    UnshiftedCount(DueOf(c.schedule, now), c.queue, e);
  }

  lemma SettleKeepsPlaces(cfg: Config, c: Client, items: seq<Queued>, a: Answer, e: Event)
    ensures var c' := Settle(cfg, c, items, a);
            && c'.queue == c.queue
            && InSchedule(c'.schedule, e) + Ended(c'.fates, e)
              == InSchedule(c.schedule, e) + Ended(c.fates, e) + Count(items, e)
  {
    if a.Failed? {
      var retries := Retried(items, cfg.maxRetries);
      RetriedOrGivenUp(items, cfg.maxRetries, e);
      if retries == [] {
        CountNone(e);
      } else {
        ScheduleSnoc(c.schedule, Retry(retries, NotBefore(a.at, a.retryAfter, retries)), e);
      }
      hide Events, Retried, GivenUp, NotBefore;
    }
  }

  lemma TrackAddsPlace(cfg: Config, c: Client, t: Event, e: Event)
    ensures var c' := Sdk.Track(cfg, c, t);
            && Count(c'.queue, e) + Ended(c'.fates, e)
               == Count(c.queue, e) + Ended(c.fates, e) + (if t == e then 1 else 0)
            && c'.schedule == c.schedule
  {
    var n := Excess(|c.queue|, cfg.maxQueueSize);
    CountSplit(c.queue, n, e);
    CountConcat(c.queue[n..], [Queued(t, 0)], e);
    CountOne(Queued(t, 0), e);
    hide Events;
  }

  /** A step moves events between places; only tracking adds one. */
  lemma StepConserves(cfg: Config, w: World, step: Step, e: Event)
    requires Enabled(w, step)
    ensures Places(Next(cfg, w, step), e) == Places(w, e) + if step == Track(e) then 1 else 0
  {
    var c := w.client;
    match step
    case Track(t) => TrackAddsPlace(cfg, c, t, e);
    case DrainDue(now) =>
      DrainKeepsPlaces(c, now, e);
    case Take =>
      var n := Min(cfg.batchSize, |c.queue|);
      CountSplit(c.queue, n, e);
      BatchesSnoc(w.flying, c.queue[..n], e);
      hide Count;
    case Answered(i, a) =>
      SettleKeepsPlaces(cfg, c, w.flying[i], a, e);
      BatchesRemoved(w.flying, i, e);
      hide Settle, Removed, Count, Ended;
    case Beacon(now) =>
      DrainKeepsPlaces(c, now, e);
      BatchesSnoc(w.beacons, Sdk.DrainDue(c, now).queue, e);
      CountNone(e);
      hide Count, Unshifted;
    case BeaconEnds(i, _) =>
      BatchesRemoved(w.beacons, i, e);
      hide Removed;
  }

  /** Every event is in one place if it was tracked, and nowhere otherwise. */
  ghost predicate OnePlace(w: World) {
    forall e :: Places(w, e) == if e in w.tracked then 1 else 0
  }

  lemma StepKeepsOnePlace(cfg: Config, w: World, step: Step)
    requires Enabled(w, step) && OnePlace(w)
    ensures OnePlace(Next(cfg, w, step))
  {
    forall e ensures Places(Next(cfg, w, step), e) == if e in Next(cfg, w, step).tracked then 1 else 0 {
      StepConserves(cfg, w, step, e);
      hide Places, Settle, EndBeacon;
    }
  }

  lemma {:induction false} RunKeepsOnePlace(cfg: Config, w: World, steps: seq<Step>)
    requires LegalRun(cfg, w, steps) && OnePlace(w)
    ensures OnePlace(Run(cfg, w, steps))
    decreases |steps|
  {
    if steps != [] {
      hide OnePlace, Next, Enabled;
      StepKeepsOnePlace(cfg, w, steps[0]);
      RunKeepsOnePlace(cfg, Next(cfg, w, steps[0]), steps[1..]);
    }
  }

  /** Conservation under every interleaving. */
  lemma ExactlyOnePlace(cfg: Config, steps: seq<Step>, e: Event)
    requires LegalRun(cfg, NewWorld, steps)
    ensures var w := Run(cfg, NewWorld, steps); Places(w, e) == if e in w.tracked then 1 else 0
  {
    assert OnePlace(NewWorld) by {
      forall f ensures Places(NewWorld, f) == 0 { CountNone(f); }
    }
    RunKeepsOnePlace(cfg, NewWorld, steps);
  }
}
