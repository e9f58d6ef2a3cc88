/**
 * The event store: an in-memory table of envelopes with the unique
 * (stream id, revision) constraint, the bulk insert that `save` performs, and
 * the queries by stream id and date, ordered by revision.
 */
module EventStore {
  import opened Results
  import opened Ids
  import opened Records
  import opened Events
  import opened Translation
  import opened Projections

  /** The unique key of a stored envelope. */
  datatype Key = Key(streamId: Uuid, revision: int)

  /** What the table accepts: a non-null stream id and a type of at most 125 characters. */
  predicate Storable(env: Envelope)
  {
    env.eventStreamId.Some? && |env.eventType| <= TypeMaxLength
  }

  function KeyOf(env: Envelope): Key
    requires env.eventStreamId.Some?
  {
    Key(env.eventStreamId.value, env.revision)
  }

  /** The table's invariant: every row storable, no two rows with the same key. */
  predicate UniqueKeys(rows: seq<Envelope>)
  {
    && (forall i | 0 <= i < |rows| :: Storable(rows[i]))
    && (forall i, j | 0 <= i < j < |rows| :: KeyOf(rows[i]) != KeyOf(rows[j]))
  }

  /** Why an insert fails: a null stream id or an over-long type, or a key already taken (an integrity error,
      which is how a concurrent writer of the same revision is turned away). */
  datatype StoreError = NotStorable(row: Envelope) | DuplicateKey(key: Key)

  /** Whether some row carries the key. */
  predicate HasKey(rows: seq<Envelope>, k: Key)
  {
    exists i | 0 <= i < |rows| :: rows[i].eventStreamId.Some? && KeyOf(rows[i]) == k
  }

  /** `bulk_create`: all rows or none; the first offending row names the error. */
  function InsertAll(rows: seq<Envelope>, batch: seq<Envelope>): (r: Result<seq<Envelope>, StoreError>)
    ensures r.Ok? ==> r.value == rows + batch
    decreases |batch|
  {
    if batch == [] then Ok(rows)
    else if !Storable(batch[0]) then Err(NotStorable(batch[0]))
    else if HasKey(rows, KeyOf(batch[0])) then Err(DuplicateKey(KeyOf(batch[0])))
    else
      assert rows + batch == (rows + [batch[0]]) + batch[1..];
      InsertAll(rows + [batch[0]], batch[1..])
  }

  /** An insert that succeeds keeps the constraint, and one into a valid table fails exactly when the
      constraint would break. */
  lemma {:induction false} InsertAllKeepsUniqueKeys(rows: seq<Envelope>, batch: seq<Envelope>)
    requires UniqueKeys(rows)
    ensures InsertAll(rows, batch).Ok? <==> UniqueKeys(rows + batch)
    decreases |batch|
  {
    if batch != [] {
      var next := rows + [batch[0]];
      assert rows + batch == next + batch[1..];
      if Storable(batch[0]) && !HasKey(rows, KeyOf(batch[0])) {
        assert UniqueKeys(next) by {
          forall i, j | 0 <= i < j < |next| ensures KeyOf(next[i]) != KeyOf(next[j]) {
            if j == |rows| {
              assert next[i] == rows[i];
            }
          }
        }
        InsertAllKeepsUniqueKeys(next, batch[1..]);
      } else if !Storable(batch[0]) {
        assert (rows + batch)[|rows|] == batch[0];
      } else {
        var i :| 0 <= i < |rows| && rows[i].eventStreamId.Some? && KeyOf(rows[i]) == KeyOf(batch[0]);
        assert (rows + batch)[i] == rows[i] && (rows + batch)[|rows|] == batch[0];
      }
    }
  }

  /** The rows of the given streams up to a date: the `filter` of both queries. */
  function Pick(rows: seq<Envelope>, ids: seq<Uuid>, maxDate: Time): (r: seq<Envelope>)
    ensures forall i | 0 <= i < |r| :: r[i].eventStreamId.Some? && r[i].eventStreamId.value in ids && r[i].time <= maxDate
    decreases |rows|
  {
    if rows == [] then []
    else
      var keep := rows[0].eventStreamId.Some? && rows[0].eventStreamId.value in ids && rows[0].time <= maxDate;
      (if keep then [rows[0]] else []) + Pick(rows[1..], ids, maxDate)
  }

  /** The filter only drops rows: what it keeps is a sub-multiset of the table. */
  lemma {:induction false} PickSub(rows: seq<Envelope>, ids: seq<Uuid>, maxDate: Time)
    ensures multiset(Pick(rows, ids, maxDate)) <= multiset(rows)
    decreases |rows|
  {
    if rows != [] {
      PickSub(rows[1..], ids, maxDate);
      assert rows == [rows[0]] + rows[1..];
    }
  }

  /** `Pick` drops no row it should keep. */
  lemma {:induction false} PickComplete(rows: seq<Envelope>, ids: seq<Uuid>, maxDate: Time, x: Envelope)
    requires x in rows && x.eventStreamId.Some? && x.eventStreamId.value in ids && x.time <= maxDate
    ensures x in Pick(rows, ids, maxDate)
    decreases |rows|
  {
    if rows[0] != x {
      PickComplete(rows[1..], ids, maxDate, x);
    }
  }

  /** The rows of one stream, in their order. */
  function OfStream(rows: seq<Envelope>, id: Uuid): (r: seq<Envelope>)
    ensures |r| <= |rows|
    decreases |rows|
  {
    if rows == [] then []
    else (if rows[0].eventStreamId == Some(id) then [rows[0]] else []) + OfStream(rows[1..], id)
  }

  /** Picking several streams and then one of them is picking that one. */
  lemma {:induction false} OfStreamPick(rows: seq<Envelope>, ids: seq<Uuid>, maxDate: Time, id: Uuid)
    requires id in ids
    ensures OfStream(Pick(rows, ids, maxDate), id) == Pick(rows, [id], maxDate)
    decreases |rows|
  {
    if rows != [] {
      OfStreamPick(rows[1..], ids, maxDate, id);
      var keep := rows[0].eventStreamId.Some? && rows[0].eventStreamId.value in ids && rows[0].time <= maxDate;
      var head: seq<Envelope> := if keep then [rows[0]] else [];
      OfStreamAppend(head, Pick(rows[1..], ids, maxDate), id);
    }
  }

  lemma {:induction false} OfStreamAppend(xs: seq<Envelope>, ys: seq<Envelope>, id: Uuid)
    ensures OfStream(xs + ys, id) == OfStream(xs, id) + OfStream(ys, id)
    decreases |xs|
  {
    if xs == [] {
      assert xs + ys == ys;
    } else {
      var zs := xs + ys;
      assert zs[0] == xs[0] && zs[1..] == xs[1..] + ys;
      var head: seq<Envelope> := if xs[0].eventStreamId == Some(id) then [xs[0]] else [];
      calc {
        OfStream(zs, id);
        head + OfStream(xs[1..] + ys, id);
        { OfStreamAppend(xs[1..], ys, id); }
        head + (OfStream(xs[1..], id) + OfStream(ys, id));
        (head + OfStream(xs[1..], id)) + OfStream(ys, id);
      }
    }
  }

  predicate SortedByRevision(rows: seq<Envelope>)
  {
    forall i, j | 0 <= i < j < |rows| :: rows[i].revision <= rows[j].revision
  }

  /** Insert after every row of the same or a lower revision. */
  function InsertByRevision(x: Envelope, rows: seq<Envelope>): (r: seq<Envelope>)
    ensures multiset(r) == multiset(rows) + multiset{x}
    decreases |rows|
  {
    if rows == [] then [x]
    else if x.revision < rows[0].revision then [x] + rows
    else
      assert rows == [rows[0]] + rows[1..];
      [rows[0]] + InsertByRevision(x, rows[1..])
  }

  lemma {:induction false} InsertKeepsSorted(x: Envelope, rows: seq<Envelope>)
    requires SortedByRevision(rows)
    ensures SortedByRevision(InsertByRevision(x, rows))
    decreases |rows|
  {
    if rows != [] && x.revision >= rows[0].revision {
      var rest := InsertByRevision(x, rows[1..]);
      InsertKeepsSorted(x, rows[1..]);
      forall i | 0 <= i < |rest| ensures rows[0].revision <= rest[i].revision {
        assert rest[i] in multiset(rest);
        if rest[i] != x {
          assert rest[i] in multiset(rows[1..]);
          var k :| 0 <= k < |rows[1..]| && rows[1..][k] == rest[i];
          assert rows[k + 1] == rest[i];
        }
      }
    }
  }

  /** `order_by('revision')`, as a stable sort: rows of equal revision keep their table order. */
  function SortByRevision(rows: seq<Envelope>): (r: seq<Envelope>)
    ensures multiset(r) == multiset(rows)
    decreases |rows|
  {
    if rows == [] then []
    else
      assert rows == rows[..|rows| - 1] + [rows[|rows| - 1]];
      InsertByRevision(rows[|rows| - 1], SortByRevision(rows[..|rows| - 1]))
  }

  lemma {:induction false} SortSorted(rows: seq<Envelope>)
    ensures SortedByRevision(SortByRevision(rows))
    decreases |rows|
  {
    if rows != [] {
      SortSorted(rows[..|rows| - 1]);
      InsertKeepsSorted(rows[|rows| - 1], SortByRevision(rows[..|rows| - 1]));
    }
  }

  /** A row no earlier row outranks goes at the end. */
  lemma {:induction false} InsertAtEnd(x: Envelope, rows: seq<Envelope>)
    requires forall i | 0 <= i < |rows| :: rows[i].revision <= x.revision
    ensures InsertByRevision(x, rows) == rows + [x]
    decreases |rows|
  {
    if rows != [] {
      InsertAtEnd(x, rows[1..]);
    }
  }

  /** Rows already in revision order are left as they are. */
  lemma {:induction false} SortOfSorted(rows: seq<Envelope>)
    requires SortedByRevision(rows)
    ensures SortByRevision(rows) == rows
    decreases |rows|
  {
    if rows != [] {
      var init := rows[..|rows| - 1];
      SortOfSorted(init);
      InsertAtEnd(rows[|rows| - 1], init);
      assert init + [rows[|rows| - 1]] == rows;
    }
  }

  /** The rows of a stream are rows of the table, of that stream. */
  lemma {:induction false} OfStreamMembers(rows: seq<Envelope>, id: Uuid)
    ensures forall y | y in OfStream(rows, id) :: y in rows && y.eventStreamId == Some(id)
    decreases |rows|
  {
    if rows != [] {
      OfStreamMembers(rows[1..], id);
    }
  }

  lemma OfStreamCons(y: Envelope, ys: seq<Envelope>, id: Uuid)
    ensures OfStream([y] + ys, id) == (if y.eventStreamId == Some(id) then [y] else []) + OfStream(ys, id)
  {
    assert ([y] + ys)[0] == y && ([y] + ys)[1..] == ys;
  }

  lemma InsertCons(x: Envelope, y: Envelope, ys: seq<Envelope>)
    ensures InsertByRevision(x, [y] + ys) ==
      if x.revision < y.revision then [x] + ([y] + ys) else [y] + InsertByRevision(x, ys)
  {
    assert ([y] + ys)[0] == y && ([y] + ys)[1..] == ys;
  }

  /** Taking one stream out of an insertion: the insertion into that stream's rows, or nothing. */
  lemma {:induction false} OfStreamInsert(x: Envelope, rows: seq<Envelope>, id: Uuid)
    requires SortedByRevision(rows)
    ensures OfStream(InsertByRevision(x, rows), id) ==
      if x.eventStreamId == Some(id) then InsertByRevision(x, OfStream(rows, id)) else OfStream(rows, id)
    decreases |rows|
  {
    var hx: seq<Envelope> := if x.eventStreamId == Some(id) then [x] else [];
    if rows == [] {
      OfStreamCons(x, [], id);
      assert [x] + [] == [x];
    } else if x.revision < rows[0].revision {
      InsertFirst(x, rows, id);
    } else {
      InsertLater(x, rows, id);
    }
  }

  lemma InsertFirst(x: Envelope, rows: seq<Envelope>, id: Uuid)
    requires SortedByRevision(rows) && rows != [] && x.revision < rows[0].revision
    ensures OfStream(InsertByRevision(x, rows), id) ==
      if x.eventStreamId == Some(id) then InsertByRevision(x, OfStream(rows, id)) else OfStream(rows, id)
  {
    var mine := OfStream(rows, id);
    assert InsertByRevision(x, rows) == [x] + rows;
    OfStreamCons(x, rows, id);
    if x.eventStreamId == Some(id) {
      if mine == [] {
        assert InsertByRevision(x, mine) == [x] + mine;
      } else {
        OfStreamMembers(rows, id);
        assert mine[0] in rows;
        assert InsertByRevision(x, mine) == [x] + mine;
      }
    }
  }

  lemma {:induction false} InsertLater(x: Envelope, rows: seq<Envelope>, id: Uuid)
    requires SortedByRevision(rows) && rows != [] && x.revision >= rows[0].revision
    ensures OfStream(InsertByRevision(x, rows), id) ==
      if x.eventStreamId == Some(id) then InsertByRevision(x, OfStream(rows, id)) else OfStream(rows, id)
    decreases |rows|, 0
  {
    var y, ys := rows[0], rows[1..];
    SortedTail(rows);
    OfStreamInsert(x, ys, id);
    LaterStep(x, y, ys, id);
  }

  lemma SortedTail(rows: seq<Envelope>)
    requires SortedByRevision(rows) && rows != []
    ensures SortedByRevision(rows[1..]) && rows == [rows[0]] + rows[1..]
  {
  }

  /** One step of `InsertLater`, given the result for the tail. */
  lemma LaterStep(x: Envelope, y: Envelope, ys: seq<Envelope>, id: Uuid)
    requires x.revision >= y.revision
    requires OfStream(InsertByRevision(x, ys), id) ==
      if x.eventStreamId == Some(id) then InsertByRevision(x, OfStream(ys, id)) else OfStream(ys, id)
    ensures OfStream(InsertByRevision(x, [y] + ys), id) ==
      if x.eventStreamId == Some(id) then InsertByRevision(x, OfStream([y] + ys, id)) else OfStream([y] + ys, id)
  {
    var hy: seq<Envelope> := if y.eventStreamId == Some(id) then [y] else [];
    var inserted := InsertByRevision(x, ys);
    var tail := OfStream(ys, id);
    InsertCons(x, y, ys);
    assert InsertByRevision(x, [y] + ys) == [y] + inserted;
    OfStreamCons(y, inserted, id);
    OfStreamCons(y, ys, id);
    assert OfStream([y] + ys, id) == hy + tail;
    if x.eventStreamId == Some(id) {
      assert OfStream(inserted, id) == InsertByRevision(x, tail);
      if y.eventStreamId == Some(id) {
        InsertCons(x, y, tail);
        assert InsertByRevision(x, [y] + tail) == [y] + InsertByRevision(x, tail);
      } else {
        assert hy + tail == tail;
        assert hy + InsertByRevision(x, tail) == InsertByRevision(x, tail);
      }
    } else {
      assert OfStream(inserted, id) == tail;
    }
  }

  /** Sorting one more row inserts it into the sorted rest. */
  lemma SortSnoc(rows: seq<Envelope>, x: Envelope)
    ensures SortByRevision(rows + [x]) == InsertByRevision(x, SortByRevision(rows))
  {
    var all := rows + [x];
    assert all[..|all| - 1] == rows && all[|all| - 1] == x;
  }

  /** The stable sort commutes with taking one stream's rows. */
  lemma {:induction false} OfStreamSort(rows: seq<Envelope>, id: Uuid)
    ensures OfStream(SortByRevision(rows), id) == SortByRevision(OfStream(rows, id))
    decreases |rows|
  {
    if rows != [] {
      var init, last := rows[..|rows| - 1], rows[|rows| - 1];
      assert rows == init + [last];
      SortSnoc(init, last);
      SortSorted(init);
      OfStreamInsert(last, SortByRevision(init), id);
      OfStreamSort(init, id);
      OfStreamAppend(init, [last], id);
      var mine := OfStream(init, id);
      if last.eventStreamId == Some(id) {
        assert OfStream([last], id) == [last];
        SortSnoc(mine, last);
      } else {
        assert OfStream([last], id) == [];
        assert mine + [] == mine;
      }
    }
  }

  /** The rows a query returns: those of the streams up to the date, in revision order. */
  function Query(rows: seq<Envelope>, ids: seq<Uuid>, maxDate: Time): seq<Envelope>
  {
    SortByRevision(Pick(rows, ids, maxDate))
  }

  /** A query returns every matching row and nothing else, ordered by revision. */
  lemma QueryContents(rows: seq<Envelope>, ids: seq<Uuid>, maxDate: Time)
    ensures SortedByRevision(Query(rows, ids, maxDate))
    ensures multiset(Query(rows, ids, maxDate)) <= multiset(rows)
    ensures forall x :: x in Query(rows, ids, maxDate) <==>
      x in rows && x.eventStreamId.Some? && x.eventStreamId.value in ids && x.time <= maxDate
  {
    var picked := Pick(rows, ids, maxDate);
    PickSub(rows, ids, maxDate);
    SortSorted(picked);
    forall x ensures x in Query(rows, ids, maxDate) <==>
      x in rows && x.eventStreamId.Some? && x.eventStreamId.value in ids && x.time <= maxDate
    {
      assert x in Query(rows, ids, maxDate) <==> x in multiset(picked);
      if x in rows && x.eventStreamId.Some? && x.eventStreamId.value in ids && x.time <= maxDate {
        PickComplete(rows, ids, maxDate, x);
      }
      if x in picked {
        assert x in multiset(rows);
      }
    }
  }

  /** The grouping of a query over several streams: each stream's share is that stream's own query. */
  lemma QueryGroup(rows: seq<Envelope>, ids: seq<Uuid>, maxDate: Time, id: Uuid)
    requires id in ids
    ensures OfStream(Query(rows, ids, maxDate), id) == Query(rows, [id], maxDate)
  {
    OfStreamSort(Pick(rows, ids, maxDate), id);
    OfStreamPick(rows, ids, maxDate, id);
  }

  /** `list(map(translate_event_to_domain_event, rows))`: stops at the first row that does not translate. */
  function TranslateAll(reg: EventMapping, envs: seq<Envelope>): (r: Result<seq<EventRecord>, TranslationError>)
    ensures r.Ok? <==> forall i | 0 <= i < |envs| :: FromEnvelope(reg, envs[i]).Ok?
    ensures r.Ok? ==> |r.value| == |envs| && forall i | 0 <= i < |envs| :: FromEnvelope(reg, envs[i]) == Ok(r.value[i])
    decreases |envs|
  {
    if envs == [] then Ok([])
    else
      var e :- FromEnvelope(reg, envs[0]);
      var rest :- TranslateAll(reg, envs[1..]);
      assert forall i | 1 <= i < |envs| :: envs[i] == envs[1..][i - 1];
      Ok([e] + rest)
  }

  /** The failure reported is the first row's that fails. */
  lemma {:induction false} TranslateAllStops(reg: EventMapping, envs: seq<Envelope>, i: nat)
    requires i < |envs| && FromEnvelope(reg, envs[i]).Err?
    requires forall j | 0 <= j < i :: FromEnvelope(reg, envs[j]).Ok?
    ensures TranslateAll(reg, envs) == Err(FromEnvelope(reg, envs[i]).error)
    decreases i
  {
    if i > 0 {
      TranslateAllStops(reg, envs[1..], i - 1);
    }
  }

  /** The events of one stream, in their order. */
  function EventsOf(es: seq<EventRecord>, id: Uuid): (r: seq<EventRecord>)
    ensures |r| <= |es|
    ensures forall i | 0 <= i < |r| :: r[i].eventStreamId == Some(id)
    decreases |es|
  {
    if es == [] then []
    else (if es[0].eventStreamId == Some(id) then [es[0]] else []) + EventsOf(es[1..], id)
  }

  /** The stream's list holds exactly the events that carry its id. */
  lemma {:induction false} EventsOfMembers(es: seq<EventRecord>, id: Uuid)
    ensures forall x :: x in EventsOf(es, id) <==> x in es && x.eventStreamId == Some(id)
    decreases |es|
  {
    if es != [] {
      EventsOfMembers(es[1..], id);
      assert es == [es[0]] + es[1..];
    }
  }

  /** One more event extends its own stream's list and no other. */
  lemma {:induction false} EventsOfSnoc(es: seq<EventRecord>, x: EventRecord, id: Uuid)
    ensures EventsOf(es + [x], id) == EventsOf(es, id) + (if x.eventStreamId == Some(id) then [x] else [])
    decreases |es|
  {
    if es == [] {
      assert [x][1..] == [];
    } else {
      assert (es + [x])[1..] == es[1..] + [x];
      EventsOfSnoc(es[1..], x, id);
    }
  }

  /** Translation keeps each row's stream id, so grouping the events is grouping the rows. */
  lemma {:induction false} EventsOfTranslateAll(reg: EventMapping, envs: seq<Envelope>, id: Uuid)
    requires TranslateAll(reg, envs).Ok?
    ensures TranslateAll(reg, OfStream(envs, id)).Ok?
    ensures EventsOf(TranslateAll(reg, envs).value, id) == TranslateAll(reg, OfStream(envs, id)).value
    decreases |envs|
  {
    if envs != [] {
      EventsOfTranslateAll(reg, envs[1..], id);
      var es := TranslateAll(reg, envs).value;
      assert es[1..] == TranslateAll(reg, envs[1..]).value;
      if envs[0].eventStreamId == Some(id) {
        var mine := [envs[0]] + OfStream(envs[1..], id);
        assert mine[0] == envs[0] && mine[1..] == OfStream(envs[1..], id);
      }
    }
  }

  datatype SaveError = Untranslatable(translationError: TranslationError) | Rejected(storeError: StoreError)

  /** `save` on values: translate the pending events, then insert them all. */
  function SaveRows(rows: seq<Envelope>, dir: Directory, pending: seq<EventRecord>): (r: Result<seq<Envelope>, SaveError>)
    ensures r.Ok? ==> TranslateBatch(dir, pending).Ok? && r.value == rows + TranslateBatch(dir, pending).value
  {
    match TranslateBatch(dir, pending)
    case Err(t) => Err(Untranslatable(t))
    case Ok(envs) =>
      match InsertAll(rows, envs)
      case Err(s) => Err(Rejected(s))
      case Ok(v) => Ok(v)
  }

  /** The events table, and the persistence and query services over it. */
  class EventStore {
    var rows: seq<Envelope>
    const translator: Translator
    /** The users table, which this core only reads. */
    const users: Directory

    ghost predicate Valid()
      reads this
    {
      UniqueKeys(rows) && translator.eventMapping == Registry()
    }

    constructor (translator: Translator, users: Directory)
      requires translator.eventMapping == Registry()
      ensures Valid() && rows == [] && this.translator == translator && this.users == users
    {
      this.rows := [];
      this.translator := translator;
      this.users := users;
    }

    /** `Event.objects.bulk_create`: every row is inserted, or, on the first integrity error, none. */
    method BulkCreate(batch: seq<Envelope>) returns (r: Option<StoreError>)
      requires Valid()
      modifies this`rows
      ensures Valid()
      ensures InsertAll(old(rows), batch).Ok? ==> r.None? && rows == old(rows) + batch
      ensures InsertAll(old(rows), batch).Err? ==> r == Some(InsertAll(old(rows), batch).error) && rows == old(rows)
    {
      InsertAllKeepsUniqueKeys(rows, batch);
      match InsertAll(rows, batch)
      case Err(e) =>
        r := Some(e);
      case Ok(v) =>
        rows := v;
        r := None;
    }

    /** `EventPersistenceService.save`: insert the translation of the uncommitted events, then forget them. */
    method Save(entity: Aggregate) returns (r: Option<SaveError>)
      requires Valid()
      modifies this`rows, entity`uncommittedEvents, set e | e in entity.uncommittedEvents
      ensures Valid()
      ensures var out := SaveRows(old(rows), users, old(Snapshots(entity.uncommittedEvents)));
        && (out.Ok? ==> r.None? && rows == out.value && entity.uncommittedEvents == [])
        && (out.Err? ==> r == Some(out.error) && rows == old(rows) && entity.uncommittedEvents == old(entity.uncommittedEvents)
                         && EncodedOrKept(entity.uncommittedEvents, old(Snapshots(entity.uncommittedEvents))))
      ensures r.None? ==> forall j | 0 <= j < |old(entity.uncommittedEvents)| ::
        old(entity.uncommittedEvents)[j].Snapshot() ==
          old(entity.uncommittedEvents[j].Snapshot()).(payload := Encode(old(entity.uncommittedEvents[j].payload)))
    {
      var pending := entity.uncommittedEvents;
      var envs, _ := translator.TranslateToDjangoModels(pending, users);
      if envs.Err? {
        return Some(Untranslatable(envs.error));
      }
      var failure := BulkCreate(envs.value);
      if failure.Some? {
        return Some(Rejected(failure.value));
      }
      entity.uncommittedEvents := [];
      r := None;
    }

    /** `count_events_by_id`: the number of rows of the stream (no date bound). */
    function CountEventsById(id: Uuid): (n: nat)
      reads this
      ensures n > 0 <==> exists i | 0 <= i < |rows| :: rows[i].eventStreamId == Some(id)
      ensures n == |StreamRows(rows, id)|
    {
      OfStreamNonEmpty(rows, id);
      OfStreamCount(rows, id);
      |OfStream(rows, id)|
    }

    /** `find_events_by_id`: fresh domain events for the stream's rows up to the date, by revision. */
    method FindEventsById(id: Uuid, maxDate: Time) returns (r: Result<seq<DomainEvent>, TranslationError>)
      requires Valid()
      ensures var out := TranslateAll(Registry(), Query(rows, [id], maxDate));
        && (out.Err? ==> r == Err(out.error))
        && (out.Ok? ==> r.Ok? && Snapshots(r.value) == out.value && Distinct(r.value)
                        && forall i | 0 <= i < |r.value| :: fresh(r.value[i]))
    {
      r := Materialize(Query(rows, [id], maxDate));
    }

    /** `find_events_for_id_in`: the same over several streams, all in one revision order. */
    method FindEventsForIdIn(ids: seq<Uuid>, maxDate: Time) returns (r: Result<seq<DomainEvent>, TranslationError>)
      requires Valid()
      ensures var out := TranslateAll(Registry(), Query(rows, ids, maxDate));
        && (out.Err? ==> r == Err(out.error))
        && (out.Ok? ==> r.Ok? && Snapshots(r.value) == out.value && Distinct(r.value)
                        && forall i | 0 <= i < |r.value| :: fresh(r.value[i]))
    {
      r := Materialize(Query(rows, ids, maxDate));
    }

    /** The `map` over the rows: one fresh domain event per row, stopping at the first failure. */
    method Materialize(envs: seq<Envelope>) returns (r: Result<seq<DomainEvent>, TranslationError>)
      ensures var out := TranslateAll(translator.eventMapping, envs);
        && (out.Err? ==> r == Err(out.error))
        && (out.Ok? ==> r.Ok? && Snapshots(r.value) == out.value && Distinct(r.value)
                        && forall i | 0 <= i < |r.value| :: fresh(r.value[i]))
    {
      var out: seq<DomainEvent> := [];
      ghost var got: seq<EventRecord> := [];
      var i := 0;
      while i < |envs|
        invariant 0 <= i <= |envs| && |out| == i && |got| == i
        invariant forall j | 0 <= j < i :: fresh(out[j])
        invariant Distinct(out)
        invariant forall j | 0 <= j < i :: FromEnvelope(translator.eventMapping, envs[j]) == Ok(got[j])
        invariant forall j | 0 <= j < i :: out[j].Snapshot() == got[j]
      {
        var e := translator.TranslateEventToDomainEvent(envs[i]);
        if e.Err? {
          TranslateAllStops(translator.eventMapping, envs, i);
          return Err(e.error);
        }
        assert e.value !in out;
        DistinctSnoc(out, e.value);
        out, got := out + [e.value], got + [e.value.Snapshot()];
        i := i + 1;
      }
      TranslateAllCollects(translator.eventMapping, envs, got);
      r := Ok(out);
    }
  }

  lemma DistinctSnoc(es: seq<DomainEvent>, e: DomainEvent)
    requires Distinct(es) && e !in es
    ensures Distinct(es + [e])
  {
  }

  /** When every row translates, the list is the list of their translations. */
  lemma {:induction false} TranslateAllCollects(reg: EventMapping, envs: seq<Envelope>, es: seq<EventRecord>)
    requires |es| == |envs| && forall j | 0 <= j < |envs| :: FromEnvelope(reg, envs[j]) == Ok(es[j])
    ensures TranslateAll(reg, envs) == Ok(es)
  {
    var r := TranslateAll(reg, envs);
    assert r.Ok?;
    assert forall j | 0 <= j < |envs| :: r.value[j] == es[j];
    assert r.value == es;
  }

  /** No object appears twice. */
  predicate Distinct(es: seq<DomainEvent>)
  {
    forall i, j | 0 <= i < j < |es| :: es[i] != es[j]
  }

  /** The positions of the table's rows that belong to the stream. */
  function StreamRows(rows: seq<Envelope>, id: Uuid): set<int>
  {
    set i | 0 <= i < |rows| && rows[i].eventStreamId == Some(id)
  }

  /** The stream filter keeps one row for every row of the table that carries the id. */
  lemma {:induction false} OfStreamCount(rows: seq<Envelope>, id: Uuid)
    ensures |OfStream(rows, id)| == |StreamRows(rows, id)|
    decreases |rows|
  {
    if rows == [] {
      assert StreamRows(rows, id) == {};
    } else {
      var init, last := rows[..|rows| - 1], rows[|rows| - 1];
      assert rows == init + [last];
      OfStreamAppend(init, [last], id);
      OfStreamCons(last, [], id);
      assert [last] + [] == [last];
      OfStreamCount(init, id);
      var tail: set<int> := if last.eventStreamId == Some(id) then {|init|} else {};
      assert StreamRows(rows, id) == StreamRows(init, id) + tail by {
        forall i ensures i in StreamRows(rows, id) <==> i in StreamRows(init, id) + tail {
          if 0 <= i < |init| {
            assert rows[i] == init[i];
          }
        }
      }
      assert |init| !in StreamRows(init, id);
    }
  }

  /** A stream has rows exactly when some row carries its id. */
  lemma {:induction false} OfStreamNonEmpty(rows: seq<Envelope>, id: Uuid)
    ensures |OfStream(rows, id)| > 0 <==> exists i | 0 <= i < |rows| :: rows[i].eventStreamId == Some(id)
    decreases |rows|
  {
    if rows != [] {
      OfStreamNonEmpty(rows[1..], id);
      if exists i | 0 <= i < |rows[1..]| :: rows[1..][i].eventStreamId == Some(id) {
        var i :| 0 <= i < |rows[1..]| && rows[1..][i].eventStreamId == Some(id);
        assert rows[i + 1] == rows[1..][i];
      }
      if exists i | 0 <= i < |rows| :: rows[i].eventStreamId == Some(id) {
        var i :| 0 <= i < |rows| && rows[i].eventStreamId == Some(id);
        if i > 0 {
          assert rows[1..][i - 1] == rows[i];
        }
      }
    }
  }
}
