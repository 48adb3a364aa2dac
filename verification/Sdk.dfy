/**
 * The TypeScript client: a bounded queue, a schedule of retries with an earliest time each, and batches in
 * flight. Delivery is at the mercy of the answers of the endpoint, which the environment picks.
 */
module Sdk {
  import opened Common

  datatype Event = Event(id: string, name: string, timestamp: string, payload: string)

  datatype Queued = Queued(event: Event, retryCount: nat)

  /** Items to be sent again, not before an instant in milliseconds. */
  datatype Retry = Retry(items: seq<Queued>, notBefore: F64)

  /**
   * The end of one attempt. Acked: a 2xx. Failed: a retryable answer at some instant, with what its Retry-After
   * parses to if it has one: seconds, NaN for a date. Refused: 400 or 413, or a throw inside the try. NoToken: no
   * token for the attempt, a throw outside the try.
   */
  datatype Answer = Acked | Failed(at: real, retryAfter: Option<F64>) | Refused | NoToken

  datatype Config = Config(batchSize: nat, maxQueueSize: nat, maxRetries: nat)

  /** Where events end. `lost` are those of attempts without a token, which nobody is told about. */
  datatype Fates = Fates(delivered: multiset<Event>, overflowed: multiset<Event>, abandoned: multiset<Event>,
                         refused: multiset<Event>, lost: multiset<Event>, beaconed: multiset<Event>)

  datatype Client = Client(queue: seq<Queued>, schedule: seq<Retry>, fates: Fates)

  const NoFates := Fates(multiset{}, multiset{}, multiset{}, multiset{}, multiset{}, multiset{})

  const NewClient := Client([], [], NoFates)

  function Events(items: seq<Queued>): seq<Event> {
    seq(|items|, i requires 0 <= i < |items| => items[i].event)
  }

  function Bag(items: seq<Queued>): multiset<Event> {
    multiset(Events(items))
  }

  // ---------------------------------------------------------------- the queue

  /** How many of the oldest an enqueue drops. */
  function Excess(size: nat, maxSize: nat): (n: nat)
    ensures n <= size
  {
    if size >= maxSize then Min(size, size - maxSize + 1) else 0
  }

  function Enqueued(q: seq<Queued>, maxSize: nat, e: Event): seq<Queued> {
    q[Excess(|q|, maxSize)..] + [Queued(e, 0)]
  }

  /**
   * An enqueue leaves at most max(1, maxSize) entries, also after requeues took the queue over its limit: the new one
   * last, and before it the newest of the old ones, in order.
   */
  lemma EnqueueBounds(q: seq<Queued>, maxSize: nat, e: Event)
    ensures var (after, n) := (Enqueued(q, maxSize, e), Min(|q| + 1, Max(maxSize, 1)));
            |after| == n && after[n - 1] == Queued(e, 0) && after[..n - 1] == q[|q| + 1 - n..]
  {
  }

  class EventQueue {
    const maxSize: nat
    var queue: seq<Queued>

    constructor (maxSize: nat)
      ensures this.maxSize == maxSize && queue == []
    {
      this.maxSize := maxSize;
      queue := [];
    }

    method Enqueue(e: Event) returns (dropped: seq<Queued>)
      modifies this
      ensures queue == Enqueued(old(queue), maxSize, e)
      ensures dropped == old(queue)[..Excess(|old(queue)|, maxSize)]
    {
      dropped := [];
      if |queue| >= maxSize {
        var n := Min(|queue|, |queue| - maxSize + 1);
        dropped, queue := queue[..n], queue[n..];
      }
      queue := queue + [Queued(e, 0)];
    }

    method Dequeue(n: nat) returns (batch: seq<Queued>)
      modifies this
      ensures batch + queue == old(queue) && |batch| == Min(n, |old(queue)|)
    {
      var k := Min(n, |queue|);
      batch, queue := queue[..k], queue[k..];
    }

    method Requeue(items: seq<Queued>)
      modifies this
      ensures queue == items + old(queue)
    {
      queue := items + queue;
    }

    method Drain() returns (all: seq<Queued>)
      modifies this
      ensures all == old(queue) && queue == []
    {
      all := queue;
      queue := [];
    }
  }

  // ---------------------------------------------------------------- retries

  predicate Due(r: Retry, now: real) {
    r.notBefore.AtMost(Number(now))
  }

  function DueOf(schedule: seq<Retry>, now: real): seq<Retry> {
    if schedule == [] then []
    else
      var rest, r := schedule[..|schedule| - 1], schedule[|schedule| - 1];
      DueOf(rest, now) + if Due(r, now) then [r] else []
  }

  function PendingOf(schedule: seq<Retry>, now: real): seq<Retry> {
    if schedule == [] then []
    else
      var rest, r := schedule[..|schedule| - 1], schedule[|schedule| - 1];
      PendingOf(rest, now) + if Due(r, now) then [] else [r]
  }

  /** Each group goes to the very front, so the last one due is sent first. */
  function Unshifted(due: seq<Retry>, q: seq<Queued>): seq<Queued> {
    if due == [] then q else due[|due| - 1].items + Unshifted(due[..|due| - 1], q)
  }

  function DrainDue(c: Client, now: real): Client {
    c.(queue := Unshifted(DueOf(c.schedule, now), c.queue), schedule := PendingOf(c.schedule, now))
  }

  function Backoff(attempt: nat): nat {
    Min(200 * Pow2(attempt), 30_000)
  }

  /** What another failure makes of the items of a batch: retried once more, or given up. */
  function Retried(items: seq<Queued>, maxRetries: nat): (retries: seq<Queued>)
    ensures forall i :: 0 <= i < |retries| ==> 1 <= retries[i].retryCount < maxRetries
  {
    if items == [] then []
    else
      var rest, r := items[..|items| - 1], items[|items| - 1];
      Retried(rest, maxRetries) + if r.retryCount + 1 >= maxRetries then [] else [Queued(r.event, r.retryCount + 1)]
  }

  function GivenUp(items: seq<Queued>, maxRetries: nat): seq<Queued> {
    if items == [] then []
    else
      var rest, r := items[..|items| - 1], items[|items| - 1];
      GivenUp(rest, maxRetries) + if r.retryCount + 1 >= maxRetries then [r] else []
  }

  function LeastRetries(items: seq<Queued>): (n: nat)
    requires items != []
    ensures exists i :: 0 <= i < |items| && items[i].retryCount == n
    ensures forall i :: 0 <= i < |items| ==> n <= items[i].retryCount
  {
    if |items| == 1 then items[0].retryCount
    else
      var n := LeastRetries(items[1..]);
      assert forall i :: 1 <= i < |items| ==> items[i] == items[1..][i - 1];
      assert exists i :: 0 <= i < |items| - 1 && items[1..][i].retryCount == n;
      if items[0].retryCount < n then items[0].retryCount else n
  }

  /** `parseFloat(retryAfterHeader) * 1000` */
  function WaitMs(seconds: F64): F64 {
    if seconds.Number? then ToF64(seconds.x * 1000.0) else seconds
  }

  /** `Date.now() + waitMs` */
  function Later(at: real, waitMs: F64): F64 {
    if waitMs.Number? then ToF64(at + waitMs.x) else waitMs
  }

  function NotBefore(at: real, retryAfter: Option<F64>, retries: seq<Queued>): F64
    requires retries != [] && forall i :: 0 <= i < |retries| ==> 1 <= retries[i].retryCount
  {
    Later(at, if retryAfter.Some? then WaitMs(retryAfter.value)
              else Number(Backoff(LeastRetries(retries) - 1) as real))
  }

  /** What the answer to a batch changes. */
  function Settle(cfg: Config, c: Client, items: seq<Queued>, a: Answer): Client {
    var f := c.fates;
    match a
    case Acked => c.(fates := f.(delivered := f.delivered + Bag(items)))
    case Refused => c.(fates := f.(refused := f.refused + Bag(items)))
    case NoToken => c.(fates := f.(lost := f.lost + Bag(items)))
    case Failed(at, retryAfter) =>
      var retries := Retried(items, cfg.maxRetries);
      c.(fates := f.(abandoned := f.abandoned + Bag(GivenUp(items, cfg.maxRetries))),
         schedule := if retries == [] then c.schedule
                     else c.schedule + [Retry(retries, NotBefore(at, retryAfter, retries))])
  }

  function Track(cfg: Config, c: Client, e: Event): Client {
    c.(queue := Enqueued(c.queue, cfg.maxQueueSize, e),
       fates := c.fates.(overflowed := c.fates.overflowed + Bag(c.queue[..Excess(|c.queue|, cfg.maxQueueSize)])))
  }

  /** The sending loop when nothing comes in between; a missing token ends it early. */
  function SendAll(cfg: Config, c: Client, answers: nat -> Answer, k: nat): Client
    requires cfg.batchSize >= 1
    decreases |c.queue|
  {
    if c.queue == [] then c
    else
      var n := Min(cfg.batchSize, |c.queue|);
      var c' := Settle(cfg, c.(queue := c.queue[n..]), c.queue[..n], answers(k));
      if answers(k).NoToken? then c' else SendAll(cfg, c', answers, k + 1)
  }

  /** Unload: what is due or queued is sent once more, whatever comes of it. */
  function Unload(c: Client, now: real, delivered: bool): Client {
    var drained := DrainDue(c, now);
    EndBeacon(drained.(queue := []), drained.queue, delivered)
  }

  /** The last send is acknowledged, or handed to the browser, or reported as perhaps lost. */
  function EndBeacon(c: Client, items: seq<Queued>, delivered: bool): Client {
    var f := c.fates;
    c.(fates := if delivered then f.(delivered := f.delivered + Bag(items))
                else f.(beaconed := f.beaconed + Bag(items)))
  }

  // ---------------------------------------------------------------- the client as an object

  class DatacatClient {
    const cfg: Config
    const queue: EventQueue
    var retrySchedule: seq<Retry>
    var fates: Fates

    ghost predicate Valid() {
      queue.maxSize == cfg.maxQueueSize
    }

    ghost function State(): Client
      reads this, queue
    {
      Client(queue.queue, retrySchedule, fates)
    }

    constructor (cfg: Config)
      ensures Valid() && this.cfg == cfg && State() == NewClient
    {
      this.cfg := cfg;
      queue := new EventQueue(cfg.maxQueueSize);
      retrySchedule := [];
      fates := NoFates;
    }

    method DoTrack(e: Event)
      requires Valid()
      modifies this`fates, queue
      ensures State() == Track(cfg, old(State()), e)
    {
      var dropped := queue.Enqueue(e);
      fates := fates.(overflowed := fates.overflowed + Bag(dropped));
    }

    method DrainDueRetries(now: real)
      modifies this`retrySchedule, queue
      ensures State() == DrainDue(old(State()), now)
    {
      var due, pending := [], [];
      var i := 0;
      while i < |retrySchedule|
        invariant 0 <= i <= |retrySchedule|
        invariant retrySchedule == old(retrySchedule) && queue.queue == old(queue.queue)
        invariant due == DueOf(retrySchedule[..i], now) && pending == PendingOf(retrySchedule[..i], now)
      {
        if Due(retrySchedule[i], now) {
          due := due + [retrySchedule[i]];
        } else {
          pending := pending + [retrySchedule[i]];
        }
        assert retrySchedule[..i + 1][..i] == retrySchedule[..i];
        i := i + 1;
      }
      assert retrySchedule[..i] == retrySchedule;
      hide DueOf, PendingOf;
      retrySchedule := pending;
      i := 0;
      while i < |due|
        invariant 0 <= i <= |due|
        invariant retrySchedule == pending && queue.queue == Unshifted(due[..i], old(queue.queue))
      {
        assert due[..i + 1][..i] == due[..i];
        queue.Requeue(due[i].items);
        i := i + 1;
      }
      assert due[..i] == due;
    }

    /** Splits the items of a failed batch into those with retries left and those without. */
    method SplitFailed(items: seq<Queued>) returns (nextItems: seq<Queued>, abandoned: seq<Queued>)
      ensures nextItems == Retried(items, cfg.maxRetries) && abandoned == GivenUp(items, cfg.maxRetries)
    {
      nextItems, abandoned := [], [];
      for i := 0 to |items|
        invariant nextItems == Retried(items[..i], cfg.maxRetries)
        invariant abandoned == GivenUp(items[..i], cfg.maxRetries)
      {
        assert items[..i + 1][..i] == items[..i];
        var next := items[i].retryCount + 1;
        if next >= cfg.maxRetries {
          abandoned := abandoned + [items[i]];
        } else {
          nextItems := nextItems + [Queued(items[i].event, next)];
        }
      }
      assert items[..|items|] == items;
    }

    /** Gives up the items without retries left, and schedules the others. */
    method ScheduleRetry(items: seq<Queued>, at: real, retryAfter: Option<F64>)
      modifies this
      ensures State() == Settle(cfg, old(State()), items, Failed(at, retryAfter))
    {
      hide Retried, GivenUp, NotBefore, Bag;
      var nextItems, abandoned := SplitFailed(items);
      fates := fates.(abandoned := fates.abandoned + Bag(abandoned));
      if nextItems != [] {
        retrySchedule := retrySchedule + [Retry(nextItems, NotBefore(at, retryAfter, nextItems))];
      }
    }

    /** False is the rejection of a client that got no token. */
    method SendBatch(items: seq<Queued>, a: Answer) returns (ok: bool)
      modifies this
      ensures State() == Settle(cfg, old(State()), items, a) && ok == !a.NoToken?
    {
      ok := true;
      match a {
        case Acked => fates := fates.(delivered := fates.delivered + Bag(items));
        case Refused => fates := fates.(refused := fates.refused + Bag(items));
        case Failed(at, retryAfter) => ScheduleRetry(items, at, retryAfter);
        case NoToken =>
          fates := fates.(lost := fates.lost + Bag(items));
          ok := false;
      }
    }

    /** Ends, because a failed batch goes to the schedule and not back to the queue. */
    method DoFlush(now: real, answers: nat -> Answer)
      requires cfg.batchSize >= 1
      modifies this, queue
      ensures State() == SendAll(cfg, DrainDue(old(State()), now), answers, 0)
    {
      hide Settle, DrainDue;
      DrainDueRetries(now);
      ghost var drained := State();
      var k := 0;
      while queue.queue != []
        invariant SendAll(cfg, State(), answers, k) == SendAll(cfg, drained, answers, 0)
        decreases |queue.queue|
      {
        ghost var before := State();
        var batch := queue.Dequeue(cfg.batchSize);
        assert batch == before.queue[..|batch|] && queue.queue == before.queue[|batch|..];
        SettleKeepsQueue(cfg, State(), batch, answers(k));
        var ok := SendBatch(batch, answers(k));
        if !ok {
          return;
        }
        k := k + 1;
      }
    }

    method BeaconFlush(now: real, delivered: bool)
      modifies this, queue
      ensures State() == Unload(old(State()), now, delivered)
      ensures queue.queue == []
    {
      hide DrainDue;
      DrainDueRetries(now);
      if queue.queue == [] {
        assert Bag([]) == multiset{};
        return;
      }
      var items := queue.Drain();
      if delivered {
        fates := fates.(delivered := fates.delivered + Bag(items));
      } else {
        fates := fates.(beaconed := fates.beaconed + Bag(items));
      }
    }
  }

  lemma AllSent(cfg: Config, c: Client, answers: nat -> Answer, k: nat)
    requires cfg.batchSize >= 1 && forall i :: i >= k ==> !answers(i).NoToken?
    ensures SendAll(cfg, c, answers, k).queue == []
    decreases |c.queue|
  {
    if c.queue != [] {
      var n := Min(cfg.batchSize, |c.queue|);
      SettleKeepsQueue(cfg, c.(queue := c.queue[n..]), c.queue[..n], answers(k));
      AllSent(cfg, Settle(cfg, c.(queue := c.queue[n..]), c.queue[..n], answers(k)), answers, k + 1);
    }
  }

  lemma SettleKeepsQueue(cfg: Config, c: Client, items: seq<Queued>, a: Answer)
    ensures Settle(cfg, c, items, a).queue == c.queue
  {
  }
}
