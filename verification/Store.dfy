/**
 * The database side of ingestion: an unlogged staging table, and an events table split into one partition for
 * each UTC day of the client timestamp. Instants count microseconds from the epoch.
 */
module Store {
  const DAY: int := 86_400_000_000

  function DayOf(t: int): int {
    t / DAY
  }

  datatype Key = Key(timestamp: int, id: string)

  /** What a client tracked; the payload stands for the other columns. */
  datatype Event = Event(key: Key, payload: string)

  datatype Row = Row(event: Event, receivedAt: int) {
    function Key(): Key { event.key }
    function Day(): int { DayOf(event.key.timestamp) }
  }

  function Keys(rows: seq<Row>): set<Key> {
    set r | r in rows :: r.Key()
  }

  function Days(rows: seq<Row>): set<int> {
    set r | r in rows :: r.Day()
  }

  datatype Db = Db(staging: seq<Row>, events: map<Key, Row>, days: set<int>)

  const EmptyDb := Db([], map[], {})

  /** Every stored row lies in a partition, under its own key. */
  ghost predicate Placed(db: Db) {
    forall k :: k in db.events ==> DayOf(k.timestamp) in db.days && db.events[k].Key() == k
  }

  function CopyIn(db: Db, rows: seq<Row>): Db {
    db.(staging := db.staging + rows)
  }

  function EnsureForStaging(db: Db): Db {
    db.(days := db.days + Days(db.staging))
  }

  /** `DISTINCT ON (timestamp_client, event_id) .. ORDER BY received_at`; `scan` is the order the rows come in. */
  function Distinct(scan: seq<Row>): map<Key, Row> {
    if scan == [] then map[]
    else
      var m, r := Distinct(scan[..|scan| - 1]), scan[|scan| - 1];
      if r.Key() in m && m[r.Key()].receivedAt <= r.receivedAt then m else m[r.Key() := r]
  }

  ghost predicate IsScan(db: Db, scan: seq<Row>) {
    multiset(scan) == multiset(db.staging)
  }

  /** The insert fails as a whole when a row has no partition. */
  predicate CanMerge(db: Db) {
    Days(db.staging) <= db.days
  }

  /** `ON CONFLICT DO NOTHING`: rows that are stored already win. Then the staging table is emptied. */
  function Merge(db: Db, scan: seq<Row>): Db {
    db.(staging := [], events := Distinct(scan) + db.events)
  }

  function Inserted(db: Db, scan: seq<Row>): set<Key> {
    Distinct(scan).Keys - db.events.Keys
  }

  function DropBefore(db: Db, day: int): Db {
    db.(events := map k | k in db.events && DayOf(k.timestamp) >= day :: db.events[k],
        days := set d | d in db.days && d >= day)
  }

  /** The rows and partitions of the other days. */
  function Without(db: Db, gone: set<int>): Db {
    db.(events := map k | k in db.events && DayOf(k.timestamp) !in gone :: db.events[k], days := db.days - gone)
  }

  // ---------------------------------------------------------------- what the merge means

  /** One row a key: an earliest received one of those scanned. */
  lemma {:induction false} DistinctPicksEarliest(scan: seq<Row>)
    ensures Distinct(scan).Keys == Keys(scan)
    ensures forall k :: k in Distinct(scan) ==> Distinct(scan)[k] in scan && Distinct(scan)[k].Key() == k
    ensures forall r :: r in scan ==> Distinct(scan)[r.Key()].receivedAt <= r.receivedAt
  {
    if scan != [] {
      var rest, r := scan[..|scan| - 1], scan[|scan| - 1];
      DistinctPicksEarliest(rest);
      assert scan == rest + [r];
      assert Keys(scan) == Keys(rest) + {r.Key()};
    }
  }

  lemma ScanKeys(db: Db, scan: seq<Row>)
    requires IsScan(db, scan)
    ensures Keys(scan) == Keys(db.staging)
    ensures forall r :: r in scan <==> r in db.staging
  {
    assert forall r :: r in scan <==> r in multiset(scan);
    assert forall r :: r in db.staging <==> r in multiset(db.staging);
  }

  /** The merge in its own words: nothing stored changes, and the new rows are the earliest under their new keys. */
  ghost predicate Extends(before: map<Key, Row>, rows: seq<Row>, after: map<Key, Row>) {
    && after.Keys == before.Keys + Keys(rows)
    && (forall k :: k in before ==> after[k] == before[k])
    && forall k :: k in after && k !in before ==>
         && after[k] in rows && after[k].Key() == k
         && forall r :: r in rows && r.Key() == k ==> after[k].receivedAt <= r.receivedAt
  }

  lemma MergeExtends(db: Db, scan: seq<Row>)
    requires IsScan(db, scan)
    ensures Extends(db.events, db.staging, Merge(db, scan).events)
    ensures Inserted(db, scan) == Keys(db.staging) - db.events.Keys
    ensures |Merge(db, scan).events| == |db.events| + |Inserted(db, scan)|
  {
    DistinctPicksEarliest(scan);
    ScanKeys(db, scan);
    var after := Merge(db, scan).events;
    assert after.Keys == db.events.Keys + Inserted(db, scan);
    assert |after| == |after.Keys| && |db.events| == |db.events.Keys|;
  }

  /** A merge that finds every staged key stored changes no stored row. */
  lemma MergeOfStored(db: Db, scan: seq<Row>)
    requires IsScan(db, scan) && Keys(db.staging) <= db.events.Keys
    ensures Merge(db, scan).events == db.events
  {
    MergeExtends(db, scan);
    hide Distinct, Inserted, Keys, IsScan;
    assert Merge(db, scan).events.Keys == db.events.Keys;
  }

  /** Rows that are copied and merged a second time, in whatever order, leave no trace. */
  lemma MergeIdempotent(db: Db, rows: seq<Row>, scan: seq<Row>, again: seq<Row>)
    requires IsScan(CopyIn(db, rows), scan)
    requires IsScan(CopyIn(Merge(CopyIn(db, rows), scan), rows), again)
    ensures Merge(CopyIn(Merge(CopyIn(db, rows), scan), rows), again) == Merge(CopyIn(db, rows), scan)
  {
    var once := Merge(CopyIn(db, rows), scan);
    MergeExtends(CopyIn(db, rows), scan);
    assert once.staging + rows == rows;
    assert Keys(rows) <= Keys(db.staging + rows);
    hide Distinct, Inserted, IsScan, Keys;
    MergeOfStored(CopyIn(once, rows), again);
  }

  /** Partitions ensured for what is staged are all a merge asks for, unless a purge comes in between. */
  lemma EnsuredCanMerge(db: Db, scan: seq<Row>)
    requires IsScan(db, scan)
    ensures CanMerge(EnsureForStaging(db))
    ensures Placed(db) ==> Placed(Merge(EnsureForStaging(db), scan))
  {
    MergeExtends(EnsureForStaging(db), scan);
  }

  /** A purge between the two makes the merge fail exactly when it drops a day that is staged. */
  lemma PurgeBetween(db: Db, day: int)
    ensures CanMerge(DropBefore(EnsureForStaging(db), day)) <==> forall r :: r in db.staging ==> r.Day() >= day
  {
    var days := DropBefore(EnsureForStaging(db), day).days;
    forall r | r in db.staging ensures r.Day() in days <==> r.Day() >= day {
      assert r.Day() in Days(db.staging);
    }
  }

  function DropDay(db: Db, d: int): Db {
    db.(events := map k | k in db.events && DayOf(k.timestamp) != d :: db.events[k], days := db.days - {d})
  }

  lemma WithoutOneMore(db: Db, gone: set<int>, d: int)
    ensures Without(db, {}) == db && Without(db, gone + {d}) == DropDay(Without(db, gone), d)
  {
    assert Without(db, {}).events == db.events;
    assert Without(db, gone + {d}).events == DropDay(Without(db, gone), d).events;
  }

  lemma WithoutPast(db: Db, gone: set<int>, day: int)
    requires Placed(db) && gone == set d | d in db.days && d < day
    ensures Without(db, gone) == DropBefore(db, day)
    ensures |gone| == |db.days| - |DropBefore(db, day).days|
  {
    assert DropBefore(db, day).days == db.days - gone;
    assert Without(db, gone).events == DropBefore(db, day).events;
  }

  /** The days from `first` up to, but not including, `end`. */
  function Span(first: int, end: int): (days: set<int>)
    ensures forall d :: (d in days <==> first <= d < end)
    decreases end - first
  {
    if first >= end then {} else Span(first, end - 1) + {end - 1}
  }

  // ---------------------------------------------------------------- the database as an object

  class Database {
    var staging: seq<Row>
    var events: map<Key, Row>
    var days: set<int>

    ghost function State(): Db
      reads this
    {
      Db(staging, events, days)
    }

    constructor ()
      ensures State() == EmptyDb
    {
      staging, events, days := [], map[], {};
    }

    method CopyRows(rows: seq<Row>)
      modifies this`staging
      ensures State() == CopyIn(old(State()), rows)
    {
      staging := staging + rows;
    }

    method Truncate()
      modifies this`staging
      ensures State() == old(State()).(staging := [])
    {
      staging := [];
    }

    method EnsurePartition(day: int)
      modifies this`days
      ensures State() == old(State()).(days := old(days) + {day})
    {
      if day !in days {
        days := days + {day};
      }
    }

    method EnsurePartitionsForStaging()
      modifies this`days
      ensures State() == EnsureForStaging(old(State()))
    {
      var todo := Days(staging);
      while todo != {}
        invariant staging == old(staging) && events == old(events)
        invariant todo <= Days(staging) && days == old(days) + (Days(staging) - todo)
        decreases |todo|
      {
        var d :| d in todo;
        EnsurePartition(d);
        todo := todo - {d};
      }
    }

    /** The partitions of the days from `today - past` to `today + future`. */
    method EnsurePartitionWindow(today: int, past: int, future: int)
      modifies this`days
      ensures State() == old(State()).(days := old(days) + Span(today - past, today + future + 1))
    {
      var offset := -past;
      while offset <= future
        invariant offset == -past || -past <= offset <= future + 1
        invariant staging == old(staging) && events == old(events)
        invariant days == old(days) + Span(today - past, today + offset)
        decreases future - offset
      {
        EnsurePartition(today + offset);
        offset := offset + 1;
      }
    }

    /** The merge function of the database; None is an insert rolled back for want of a partition. */
    method MergeStaging(scan: seq<Row>) returns (inserted: nat, ok: bool)
      requires IsScan(State(), scan)
      modifies this
      ensures ok == CanMerge(old(State()))
      ensures State() == if ok then Merge(old(State()), scan) else old(State())
      ensures ok ==> inserted == |Inserted(old(State()), scan)| && |events| == |old(events)| + inserted
    {
      if !(Days(staging) <= days) {
        return 0, false;
      }
      MergeExtends(State(), scan);
      inserted := |Inserted(Db(staging, events, days), scan)|;
      events := Distinct(scan) + events;
      staging := [];
      ok := true;
    }

    method DropPartition(d: int)
      modifies this`events, this`days
      ensures State() == DropDay(old(State()), d)
    {
      events := map k | k in events && DayOf(k.timestamp) != d :: events[k];
      days := days - {d};
    }

    method DropPartitionsBefore(day: int) returns (dropped: nat)
      requires Placed(State())
      modifies this
      ensures State() == DropBefore(old(State()), day)
      ensures dropped == |old(days)| - |days|
    {
      dropped := 0;
      var todo := set d | d in days && d < day;
      ghost var all := todo;
      ghost var before := State();
      WithoutOneMore(before, {}, day);
      WithoutPast(before, all, day);
      hide Without, DropBefore, Placed, DropDay;
      assert all - todo == {};
      while todo != {}
        invariant todo <= all && dropped == |all| - |todo|
        invariant State() == Without(before, all - todo)
        decreases |todo|
      {
        var d :| d in todo;
        WithoutOneMore(before, all - todo, d);
        DropPartition(d);
        dropped := dropped + 1;
        assert all - (todo - {d}) == all - todo + {d};
        todo := todo - {d};
      }
      assert all - todo == all;
    }
  }
}
