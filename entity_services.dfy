/**
 * The loading half of the entity services: one entity rebuilt by replaying its
 * stored events, and the grouped load of several entities. The commands that
 * apply new events and save them are in `Commands`.
 */
module EntityServices {
  import opened Results
  import opened Ids
  import opened Records
  import opened Lists
  import opened Events
  import opened Translation
  import opened Projections
  import opened EventStore
  import R = RestaurantEvents
  import M = MenuItemEvents

  /** Which service: the restaurant service or the menu item service. */
  datatype EntityKind = RestaurantEntity | MenuItemEntity

  /** The attributes `_get_base_entity` starts from. */
  function BaseState(kind: EntityKind): AggregateState
  {
    match kind
    case RestaurantEntity => NewRestaurant
    case MenuItemEntity => NewMenuItem
  }

  datatype LoadError = QueryFailed(translationError: TranslationError) | ReplayFailed(applyError: ApplyError)

  /** `_load_entity_up_to` on values: no entity for a stream without events up to the date,
      otherwise the fold of its events over a base entity with the stream's id. */
  function LoadValue(reg: EventMapping, rows: seq<Envelope>, kind: EntityKind, id: Uuid, maxDate: Time): Result<Option<AggregateValue>, LoadError>
  {
    match TranslateAll(reg, Query(rows, [id], maxDate))
    case Err(t) => Err(QueryFailed(t))
    case Ok(found) =>
      if found == [] then Ok(None)
      else
        match Fold(Fresh(id, BaseState(kind)), found)
        case Err(a) => Err(ReplayFailed(a))
        case Ok(v) => Ok(Some(v))
  }

  // ----- save, then load again -----

  /** Events applied on first observation come out bound, one for one. */
  lemma {:induction false} AllObserved(id: Uuid, es: seq<EventRecord>)
    requires forall i | 0 <= i < |es| :: es[i].eventStreamId.None?
    ensures |FirstObservations(id, es)| == |es|
    ensures forall i | 0 <= i < |es| :: FirstObservations(id, es)[i] == Observe(id, es[i])
    decreases |es|
  {
    if es != [] {
      assert es[0].eventStreamId.None?;
      AllObserved(id, es[1..]);
      var rest := FirstObservations(id, es[1..]);
      assert FirstObservations(id, es) == [Observe(id, es[0])] + rest;
      forall i | 1 <= i < |es| ensures FirstObservations(id, es)[i] == Observe(id, es[i]) {
        assert es[1..][i - 1] == es[i];
      }
    }
  }

  /** The filter distributes over concatenation. */
  lemma {:induction false} PickAppend(xs: seq<Envelope>, ys: seq<Envelope>, ids: seq<Uuid>, maxDate: Time)
    ensures Pick(xs + ys, ids, maxDate) == Pick(xs, ids, maxDate) + Pick(ys, ids, maxDate)
    decreases |xs|
  {
    if xs == [] {
      assert xs + ys == ys;
    } else {
      var zs := xs + ys;
      assert zs[0] == xs[0] && zs[1..] == xs[1..] + ys;
      PickAppend(xs[1..], ys, ids, maxDate);
      var keep := xs[0].eventStreamId.Some? && xs[0].eventStreamId.value in ids && xs[0].time <= maxDate;
      var head: seq<Envelope> := if keep then [xs[0]] else [];
      var p, q := Pick(xs[1..], ids, maxDate), Pick(ys, ids, maxDate);
      assert Pick(zs, ids, maxDate) == head + (p + q);
      assert head + (p + q) == (head + p) + q;
    }
  }

  /** A stream with no rows contributes nothing to its query. */
  lemma {:induction false} PickNone(rows: seq<Envelope>, id: Uuid, maxDate: Time)
    requires forall i | 0 <= i < |rows| :: rows[i].eventStreamId != Some(id)
    ensures Pick(rows, [id], maxDate) == []
    decreases |rows|
  {
    if rows != [] {
      PickNone(rows[1..], id, maxDate);
    }
  }

  /** Rows all of the stream and all up to the date are picked whole. */
  lemma {:induction false} PickAll(rows: seq<Envelope>, id: Uuid, maxDate: Time)
    requires forall i | 0 <= i < |rows| :: rows[i].eventStreamId == Some(id) && rows[i].time <= maxDate
    ensures Pick(rows, [id], maxDate) == rows
    decreases |rows|
  {
    if rows != [] {
      PickAll(rows[1..], id, maxDate);
      assert rows == [rows[0]] + rows[1..];
    }
  }

  /** The rows a save writes for a new entity are the whole of its stream's query. */
  lemma {:induction false} SavedRowsQueried(rows: seq<Envelope>, envs: seq<Envelope>, id: Uuid, maxDate: Time)
    requires forall i | 0 <= i < |rows| :: rows[i].eventStreamId != Some(id)
    requires forall i | 0 <= i < |envs| :: envs[i].eventStreamId == Some(id) && envs[i].time <= maxDate
    requires forall i | 0 <= i < |envs| :: envs[i].revision == i + 1
    ensures Query(rows + envs, [id], maxDate) == envs
  {
    PickAppend(rows, envs, [id], maxDate);
    PickNone(rows, id, maxDate);
    PickAll(envs, id, maxDate);
    assert Pick(rows + envs, [id], maxDate) == envs;
    SortOfSorted(envs);
  }

  /** The events as they come back from the table: the same, but not first observed. */
  function Reloaded(es: seq<EventRecord>): (fs: seq<EventRecord>)
    ensures |fs| == |es| && forall i | 0 <= i < |es| :: fs[i] == es[i].(firstObservation := false)
  {
    seq(|es|, i requires 0 <= i < |es| => es[i].(firstObservation := false))
  }

  /** Envelopes of in-memory events translate back to those events, unflagged. */
  lemma {:induction false} ReloadEnvelopes(es: seq<EventRecord>, envs: seq<Envelope>)
    requires forall i | 0 <= i < |es| :: Hydrated(es[i].payload)
    requires |envs| == |es| && forall i | 0 <= i < |es| :: envs[i] == ToEnvelope(es[i])
    ensures TranslateAll(Registry(), envs) == Ok(Reloaded(es))
  {
    var fs := Reloaded(es);
    forall j | 0 <= j < |envs|
      ensures FromEnvelope(Registry(), envs[j]) == Ok(fs[j])
    {
      RoundTrip(es[j]);
    }
    TranslateAllCollects(Registry(), envs, fs);
  }

  /** A new entity that applies events not yet in any stream records each of them, bound to its id, in order. */
  lemma {:induction false} FreshObservations(id: Uuid, st: AggregateState, es: seq<EventRecord>)
    requires forall i | 0 <= i < |es| :: es[i].eventStreamId.None?
    requires Fold(Fresh(id, st), es).Ok?
    ensures var obs := Fold(Fresh(id, st), es).value.uncommitted;
      && |obs| == |es|
      && forall i | 0 <= i < |es| :: obs[i] == Observe(id, es[i]) && obs[i].revision == i + 1
  {
    var a := Fresh(id, st);
    FoldShape(a, es);
    AllObserved(id, es);
    assert [] + FirstObservations(id, es) == FirstObservations(id, es);
  }

  /** Replaying what a new entity recorded rebuilds that entity, with nothing left uncommitted. */
  lemma {:induction false} ReplayRecorded(id: Uuid, st: AggregateState, es: seq<EventRecord>)
    requires forall i | 0 <= i < |es| :: es[i].eventStreamId.None?
    requires Fold(Fresh(id, st), es).Ok?
    ensures var v := Fold(Fresh(id, st), es).value;
      Fold(Fresh(id, st), Reloaded(v.uncommitted)) == Ok(v.(uncommitted := []))
  {
    var a := Fresh(id, st);
    var v := Fold(a, es).value;
    FoldShape(a, es);
    FreshObservations(id, st, es);
    var fs := Reloaded(v.uncommitted);
    FoldIgnoresBinding(a, a, es, fs);
    FoldShape(a, fs);
    ReplayObservesNothing(id, fs);
  }

  /** Saving a new entity's events and loading its stream again gives back the entity,
      same id, revision and attributes, with nothing left uncommitted. */
  lemma {:induction false} SaveThenReload(rows: seq<Envelope>, dir: Directory, id: Uuid, st: AggregateState, es: seq<EventRecord>, maxDate: Time)
    requires forall i | 0 <= i < |rows| :: rows[i].eventStreamId != Some(id)
    requires forall i | 0 <= i < |es| :: es[i].eventStreamId.None? && Hydrated(es[i].payload) && es[i].timestamp <= maxDate
    requires Fold(Fresh(id, st), es).Ok?
    requires SaveRows(rows, dir, Fold(Fresh(id, st), es).value.uncommitted).Ok?
    ensures var saved := SaveRows(rows, dir, Fold(Fresh(id, st), es).value.uncommitted).value;
      var loaded := TranslateAll(Registry(), Query(saved, [id], maxDate));
      && loaded.Ok?
      && Fold(Fresh(id, st), loaded.value) == Ok(Fold(Fresh(id, st), es).value.(uncommitted := []))
  {
    var obs := Fold(Fresh(id, st), es).value.uncommitted;
    FreshObservations(id, st, es);
    var envs := TranslateBatch(dir, obs).value;
    SavedRowsQueried(rows, envs, id, maxDate);
    ReloadEnvelopes(obs, envs);
    ReplayRecorded(id, st, es);
  }

  // ----- replaying events onto an entity -----

  /** `_get_base_entity(event_stream_id)`: a new entity of the service's class with the given id. */
  method GetBaseEntity(kind: EntityKind, id: Uuid) returns (entity: Aggregate)
    ensures fresh(entity) && entity.Valid() && entity.menuItems == []
    ensures entity.Value() == Fresh(id, BaseState(kind))
  {
    if kind == RestaurantEntity {
      entity := new Aggregate.Restaurant(Some(id), id);
    } else {
      entity := new Aggregate.MenuItem(Some(id), id);
    }
  }

  /** `_build_entity_for_events`: apply the events in order to a base entity. An event object listed twice is
      already bound when it comes round again, but its revision is then stale, so the outcome is the fold of the
      events as they were on entry; events that already carry a stream id are left as they are. */
  method BuildEntityForEvents(kind: EntityKind, id: Uuid, events: seq<DomainEvent>) returns (entity: Aggregate, r: Option<ApplyError>)
    modifies set e | e in events
    ensures fresh(entity) && entity.Valid() && entity.menuItems == []
    ensures var res := Fold(Fresh(id, BaseState(kind)), old(Snapshots(events)));
      && (res.Ok? ==> r.None? && entity.Value() == res.value)
      && (res.Err? ==> r == Some(res.error))
    ensures forall e | e in events && old(e.eventStreamId).Some? :: e.Snapshot() == old(e.Snapshot())
  {
    ghost var before := Snapshots(events);
    ghost var applied: set<DomainEvent> := {};
    entity := GetBaseEntity(kind, id);
    r := None;
    var i := 0;
    while i < |events|
      invariant 0 <= i <= |events|
      invariant fresh(entity) && entity.Valid() && entity.menuItems == [] && r.None?
      invariant Fold(Fresh(id, BaseState(kind)), before) == Fold(entity.Value(), before[i..])
      invariant forall d | d in applied :: d.revision <= entity.revision
      invariant forall j | 0 <= j < |events| :: events[j] !in applied ==> events[j].Snapshot() == before[j]
      invariant forall j | 0 <= j < |events| :: before[j].eventStreamId.Some? ==> events[j].Snapshot() == before[j]
    {
      ghost var v := entity.Value();
      var err := ReplayStep(entity, events[i], events, i, before, applied);
      ghost var rest := before[i..];
      assert rest[0] == before[i] && rest[1..] == before[i + 1..];
      FoldFirst(v, rest);
      if err.Some? {
        return entity, err;
      }
      applied := applied + {events[i]};
      i := i + 1;
    }
  }

  /** One turn of the loop of `_build_entity_for_events`: `entity.apply(events[i])`, which acts as the
      transition on the event's value before the loop even when the same object occurs twice in the list. */
  method ReplayStep(entity: Aggregate, e: DomainEvent, ghost events: seq<DomainEvent>, ghost i: nat,
                    ghost before: seq<EventRecord>, ghost applied: set<DomainEvent>) returns (err: Option<ApplyError>)
    requires entity.Valid() && i < |events| == |before| && events[i] == e && e.revision == before[i].revision
    requires forall d | d in applied :: d.revision <= entity.revision
    requires forall j | 0 <= j < |events| :: events[j] !in applied ==> events[j].Snapshot() == before[j]
    requires forall j | 0 <= j < |events| :: before[j].eventStreamId.Some? ==> events[j].Snapshot() == before[j]
    modifies entity`revision, entity`uncommittedEvents, entity`state, e`eventStreamId, e`firstObservation
    ensures entity.Valid()
    ensures var t := Transition(old(entity.Value()), before[i]); err == t.error && entity.Value() == t.agg
    ensures err.None? ==> forall d | d in applied + {e} :: d.revision <= entity.revision
    ensures forall j | 0 <= j < |events| :: events[j] !in applied + {e} ==> events[j].Snapshot() == before[j]
    ensures forall j | 0 <= j < |events| :: before[j].eventStreamId.Some? ==> events[j].Snapshot() == before[j]
  {
    assert e in applied ==> e.revision <= entity.revision;
    assert e !in applied ==> e.Snapshot() == before[i];
    err := entity.Apply(e);
  }

  /** `_load_entity_up_to`: the stream's events up to the date, replayed; no entity when there are none. */
  method LoadEntityUpTo(store: EventStore, kind: EntityKind, id: Uuid, maxDate: Time) returns (r: Result<Option<Aggregate>, LoadError>)
    requires store.Valid()
    ensures var spec := LoadValue(Registry(), store.rows, kind, id, maxDate);
      && (spec.Err? ==> r == Err(spec.error))
      && (spec.Ok? && spec.value.None? ==> r == Ok(None))
      && (spec.Ok? && spec.value.Some? ==> r.Ok? && r.value.Some? && fresh(r.value.value) && r.value.value.Value() == spec.value.value)
      && (r.Ok? && r.value.Some? ==> r.value.value.Valid() && r.value.value.menuItems == [] && r.value.value.uncommittedEvents == [])
  {
    var found := store.FindEventsById(id, maxDate);
    if found.Err? {
      return Err(QueryFailed(found.error));
    }
    var events := found.value;
    if |events| == 0 {
      return Ok(None);
    }
    ghost var recs := Snapshots(events);
    FoundBound(Registry(), store.rows, [id], maxDate);
    var entity, err := BuildEntityForEvents(kind, id, events);
    if err.Some? {
      return Err(ReplayFailed(err.value));
    }
    FoldShape(Fresh(id, BaseState(kind)), recs);
    ReplayObservesNothing(id, recs);
    assert |Snapshots(entity.uncommittedEvents)| == 0;
    r := Ok(Some(entity));
  }

  // ----- loading several streams -----

  /** The keys of `event_group`, in the order the dictionary first saw them: the distinct stream ids of the
      events (an event without one has no group; every event read from the table has one). */
  function StreamsOf(es: seq<EventRecord>): (ks: seq<Uuid>)
    ensures NoDuplicates(ks)
    ensures forall k :: k in ks <==> exists i | 0 <= i < |es| :: es[i].eventStreamId == Some(k)
    decreases |es|
  {
    if es == [] then []
    else
      var front, last := es[..|es| - 1], es[|es| - 1];
      assert forall i | 0 <= i < |front| :: front[i] == es[i];
      if last.eventStreamId.None? then StreamsOf(front) else AddAbsent(StreamsOf(front), last.eventStreamId.value)
  }

  /** One entity's replay of its stream within the found events. */
  function Replay(kind: EntityKind, id: Uuid, found: seq<EventRecord>): Result<AggregateValue, ApplyError>
  {
    Fold(Fresh(id, BaseState(kind)), EventsOf(found, id))
  }

  /** The replays of the keys, in key order. */
  function Replays(kind: EntityKind, keys: seq<Uuid>, found: seq<EventRecord>): (rs: seq<Result<AggregateValue, ApplyError>>)
    ensures |rs| == |keys| && forall i | 0 <= i < |keys| :: rs[i] == Replay(kind, keys[i], found)
  {
    seq(|keys|, i requires 0 <= i < |keys| => Replay(kind, keys[i], found))
  }

  /** Every listed event is one of `pool`. */
  ghost predicate Within(group: map<Uuid, seq<DomainEvent>>, pool: set<DomainEvent>)
  {
    forall k, i | k in group && 0 <= i < |group[k]| :: group[k][i] in pool
  }

  /** The entity's fields are those of `v`, with nothing uncommitted. */
  ghost predicate Holds(entity: Aggregate, v: AggregateValue)
    reads entity
  {
    && entity.uncommittedEvents == [] && v.uncommitted == [] && entity.menuItems == []
    && entity.id == v.id && entity.revision == v.revision && entity.state == v.state
  }

  /** Entities that hold `vals` pointwise have those values. */
  lemma HoldsValues(entities: seq<Aggregate>, vals: seq<AggregateValue>)
    requires |entities| == |vals| && forall j | 0 <= j < |entities| :: Holds(entities[j], vals[j])
    ensures forall j | 0 <= j < |entities| :: entities[j].Value() == vals[j]
    ensures forall j | 0 <= j < |entities| ::
      entities[j].Valid() && entities[j].menuItems == [] && entities[j].uncommittedEvents == []
  {
    forall j | 0 <= j < |entities| ensures entities[j].Value() == vals[j] {
      assert Snapshots(entities[j].uncommittedEvents) == [];
    }
  }

  /** The second loop of `_load_multiple_up_to` on values: the replays' values in order, or the first failure. */
  function Collect(rs: seq<Result<AggregateValue, ApplyError>>): (r: Result<seq<AggregateValue>, LoadError>)
    ensures r.Ok? ==> |r.value| == |rs|
    ensures r.Err? ==> r.error.ReplayFailed?
    decreases |rs|
  {
    if rs == [] then Ok([])
    else
      var n := |rs| - 1;
      match Collect(rs[..n])
      case Err(e) => Err(e)
      case Ok(vs) =>
        match rs[n]
        case Err(a) => Err(ReplayFailed(a))
        case Ok(v) => Ok(vs + [v])
  }

  /** Every replay succeeds exactly when the collection does, which then holds their values in order; a failure
      is the first failing replay's. */
  lemma {:induction false} CollectEach(rs: seq<Result<AggregateValue, ApplyError>>)
    ensures Collect(rs).Ok? <==> forall i | 0 <= i < |rs| :: rs[i].Ok?
    ensures Collect(rs).Ok? ==> forall i | 0 <= i < |rs| :: rs[i] == Ok(Collect(rs).value[i])
    ensures Collect(rs).Err? ==> exists i | 0 <= i < |rs| :: rs[i].Err? && Collect(rs) == Err(ReplayFailed(rs[i].error)) &&
                                   forall j | 0 <= j < i :: rs[j].Ok?
    decreases |rs|
  {
    if rs != [] {
      var n := |rs| - 1;
      var front := rs[..n];
      CollectEach(front);
      assert forall i | 0 <= i < n :: front[i] == rs[i];
      if Collect(front).Err? {
        var i :| 0 <= i < n && front[i].Err? && Collect(front) == Err(ReplayFailed(front[i].error)) &&
                 forall j | 0 <= j < i :: front[j].Ok?;
        assert rs[i].Err? && forall j | 0 <= j < i :: rs[j].Ok?;
      } else if rs[n].Ok? {
        assert Collect(rs).value == Collect(front).value + [rs[n].value];
      }
    }
  }

  /** One more replay extends a successful collection, or ends it with that replay's failure. */
  lemma CollectStep(rs: seq<Result<AggregateValue, ApplyError>>, n: nat)
    requires n < |rs| && Collect(rs[..n]).Ok?
    ensures rs[n].Ok? ==> Collect(rs[..n + 1]) == Ok(Collect(rs[..n]).value + [rs[n].value])
    ensures rs[n].Err? ==> Collect(rs[..n + 1]) == Err(ReplayFailed(rs[n].error))
  {
    assert rs[..n + 1][..n] == rs[..n];
  }

  /** Once a prefix fails, so does the whole list, with the same error. */
  lemma {:induction false} CollectStops(rs: seq<Result<AggregateValue, ApplyError>>, n: nat)
    requires n <= |rs| && Collect(rs[..n]).Err?
    ensures Collect(rs) == Collect(rs[..n])
    decreases |rs|
  {
    if n < |rs| {
      var m := |rs| - 1;
      assert rs[..m][..n] == rs[..n];
      CollectStops(rs[..m], n);
    } else {
      assert rs[..n] == rs;
    }
  }

  /** `_load_multiple_up_to` on values: the grouped query translated, then one entity per stream, in the order
      the streams first appear among the events. */
  function LoadMultipleValues(reg: EventMapping, rows: seq<Envelope>, kind: EntityKind, ids: seq<Uuid>, maxDate: Time): Result<seq<AggregateValue>, LoadError>
  {
    match TranslateAll(reg, Query(rows, ids, maxDate))
    case Err(t) => Err(QueryFailed(t))
    case Ok(found) => Collect(Replays(kind, StreamsOf(found), found))
  }

  /** Every event of a grouped query carries the id of one of the requested streams. */
  lemma FoundBound(reg: EventMapping, rows: seq<Envelope>, ids: seq<Uuid>, maxDate: Time)
    requires TranslateAll(reg, Query(rows, ids, maxDate)).Ok?
    ensures var found := TranslateAll(reg, Query(rows, ids, maxDate)).value;
      forall i | 0 <= i < |found| :: found[i].eventStreamId.Some? && found[i].eventStreamId.value in ids
  {
    var q := Query(rows, ids, maxDate);
    QueryContents(rows, ids, maxDate);
    forall i | 0 <= i < |q| ensures q[i].eventStreamId.Some? && q[i].eventStreamId.value in ids {
      assert q[i] in q;
    }
  }

  /** A requested stream's events within the grouped query are exactly that stream's own query, translated. */
  lemma GroupIsOwnQuery(reg: EventMapping, rows: seq<Envelope>, ids: seq<Uuid>, maxDate: Time, id: Uuid)
    requires TranslateAll(reg, Query(rows, ids, maxDate)).Ok? && id in ids
    ensures TranslateAll(reg, Query(rows, [id], maxDate)) == Ok(EventsOf(TranslateAll(reg, Query(rows, ids, maxDate)).value, id))
  {
    QueryGroup(rows, ids, maxDate, id);
    EventsOfTranslateAll(reg, Query(rows, ids, maxDate), id);
  }

  /** Loading several streams at once gives, for each stream with events up to the date, once and in first-seen
      order, the entity that loading that stream alone gives; the streams without such events are skipped. */
  lemma LoadMultipleIsEachLoad(reg: EventMapping, rows: seq<Envelope>, kind: EntityKind, ids: seq<Uuid>, maxDate: Time)
    requires LoadMultipleValues(reg, rows, kind, ids, maxDate).Ok?
    ensures TranslateAll(reg, Query(rows, ids, maxDate)).Ok?
    ensures var keys := StreamsOf(TranslateAll(reg, Query(rows, ids, maxDate)).value);
      var vs := LoadMultipleValues(reg, rows, kind, ids, maxDate).value;
      && NoDuplicates(keys) && |vs| == |keys|
      && (forall i | 0 <= i < |keys| :: keys[i] in ids && LoadValue(reg, rows, kind, keys[i], maxDate) == Ok(Some(vs[i])))
      && (forall id | id in ids && Query(rows, [id], maxDate) != [] :: id in keys)
  {
    var found := TranslateAll(reg, Query(rows, ids, maxDate)).value;
    var keys := StreamsOf(found);
    var vs := Collect(Replays(kind, keys, found)).value;
    CollectEach(Replays(kind, keys, found));
    FoundBound(reg, rows, ids, maxDate);
    forall i | 0 <= i < |keys| ensures keys[i] in ids && LoadValue(reg, rows, kind, keys[i], maxDate) == Ok(Some(vs[i])) {
      KeyLoads(reg, rows, kind, ids, maxDate, keys[i]);
    }
    forall id | id in ids && Query(rows, [id], maxDate) != [] ensures id in keys {
      KeyFound(reg, rows, ids, maxDate, id);
    }
  }

  /** A key of the grouped load is a requested stream, and loading it alone replays the same events. */
  lemma KeyLoads(reg: EventMapping, rows: seq<Envelope>, kind: EntityKind, ids: seq<Uuid>, maxDate: Time, k: Uuid)
    requires TranslateAll(reg, Query(rows, ids, maxDate)).Ok?
    requires k in StreamsOf(TranslateAll(reg, Query(rows, ids, maxDate)).value)
    ensures k in ids
    ensures var found := TranslateAll(reg, Query(rows, ids, maxDate)).value;
      Replay(kind, k, found).Ok? ==> LoadValue(reg, rows, kind, k, maxDate) == Ok(Some(Replay(kind, k, found).value))
  {
    var found := TranslateAll(reg, Query(rows, ids, maxDate)).value;
    KeyRequested(reg, rows, ids, maxDate, k);
    GroupIsOwnQuery(reg, rows, ids, maxDate, k);
    KeyHasEvents(found, k);
  }

  /** The keys are among the requested ids. */
  lemma KeyRequested(reg: EventMapping, rows: seq<Envelope>, ids: seq<Uuid>, maxDate: Time, k: Uuid)
    requires TranslateAll(reg, Query(rows, ids, maxDate)).Ok?
    requires k in StreamsOf(TranslateAll(reg, Query(rows, ids, maxDate)).value)
    ensures k in ids
  {
    var found := TranslateAll(reg, Query(rows, ids, maxDate)).value;
    FoundBound(reg, rows, ids, maxDate);
    var j :| 0 <= j < |found| && found[j].eventStreamId == Some(k);
  }

  /** Each key has at least one event. */
  lemma KeyHasEvents(found: seq<EventRecord>, k: Uuid)
    requires k in StreamsOf(found)
    ensures EventsOf(found, k) != []
  {
    var j :| 0 <= j < |found| && found[j].eventStreamId == Some(k);
    EventsOfMembers(found, k);
    assert found[j] in EventsOf(found, k);
  }

  /** Every requested stream with events up to the date is a key of the grouped load. */
  lemma KeyFound(reg: EventMapping, rows: seq<Envelope>, ids: seq<Uuid>, maxDate: Time, id: Uuid)
    requires TranslateAll(reg, Query(rows, ids, maxDate)).Ok?
    requires id in ids && Query(rows, [id], maxDate) != []
    ensures id in StreamsOf(TranslateAll(reg, Query(rows, ids, maxDate)).value)
  {
    var q := Query(rows, ids, maxDate);
    var found := TranslateAll(reg, q).value;
    QueryGroup(rows, ids, maxDate, id);
    OfStreamNonEmpty(q, id);
    var j :| 0 <= j < |q| && q[j].eventStreamId == Some(id);
    assert FromEnvelope(reg, q[j]) == Ok(found[j]);
  }

  /** `_load_multiple_up_to`: the grouped query, its events grouped by stream into `event_group` in first-seen
      order, then one entity built per group. */
  method LoadMultipleUpTo(store: EventStore, kind: EntityKind, ids: seq<Uuid>, maxDate: Time) returns (r: Result<seq<Aggregate>, LoadError>)
    requires store.Valid()
    ensures var spec := LoadMultipleValues(Registry(), store.rows, kind, ids, maxDate);
      && (spec.Err? ==> r == Err(spec.error))
      && (spec.Ok? ==> && r.Ok? && |r.value| == |spec.value|
                       && forall i | 0 <= i < |r.value| :: fresh(r.value[i]) && r.value[i].Value() == spec.value[i])
    ensures r.Ok? ==> forall i | 0 <= i < |r.value| ::
      r.value[i].Valid() && r.value[i].menuItems == [] && r.value[i].uncommittedEvents == []
  {
    var found := store.FindEventsForIdIn(ids, maxDate);
    if found.Err? {
      return Err(QueryFailed(found.error));
    }
    FoundBound(Registry(), store.rows, ids, maxDate);
    LoadMultipleFound(Registry(), store.rows, kind, ids, maxDate, Snapshots(found.value));
    r := LoadFound(kind, found.value, LoadMultipleValues(Registry(), store.rows, kind, ids, maxDate));
  }

  /** Groups the fetched events by stream and builds one entity per stream; `spec` is what the load must give. */
  method LoadFound(kind: EntityKind, events: seq<DomainEvent>, ghost spec: Result<seq<AggregateValue>, LoadError>)
    returns (r: Result<seq<Aggregate>, LoadError>)
    requires forall i | 0 <= i < |events| :: events[i].eventStreamId.Some?
    requires spec == Collect(Replays(kind, StreamsOf(Snapshots(events)), Snapshots(events)))
    modifies set e | e in events
    ensures spec.Err? ==> r == Err(spec.error)
    ensures spec.Ok? ==> && r.Ok? && |r.value| == |spec.value|
                         && forall i | 0 <= i < |r.value| :: fresh(r.value[i]) && r.value[i].Value() == spec.value[i]
    ensures r.Ok? ==> forall i | 0 <= i < |r.value| ::
      r.value[i].Valid() && r.value[i].menuItems == [] && r.value[i].uncommittedEvents == []
  {
    var group, keys := GroupByStream(events);
    GroupedReady(kind, events, group, keys);
    var entities, vals, err := BuildGroups(kind, keys, group, Snapshots(events), (set e | e in events),
                                           Replays(kind, keys, Snapshots(events)));
    if err.Some? {
      return Err(err.value);
    }
    HoldsValues(entities, vals);
    r := Ok(entities);
  }

  /** Once the grouped query has translated, the load is the collection of the found streams' replays. */
  lemma LoadMultipleFound(reg: EventMapping, rows: seq<Envelope>, kind: EntityKind, ids: seq<Uuid>, maxDate: Time,
                          found: seq<EventRecord>)
    requires TranslateAll(reg, Query(rows, ids, maxDate)) == Ok(found)
    ensures LoadMultipleValues(reg, rows, kind, ids, maxDate) == Collect(Replays(kind, StreamsOf(found), found))
  {
  }

  /** The first loop leaves the second one ready to start. */
  lemma GroupedReady(kind: EntityKind, events: seq<DomainEvent>, group: map<Uuid, seq<DomainEvent>>, keys: seq<Uuid>)
    requires Grouping(Snapshots(events), group, keys)
    requires forall k, j | k in group && 0 <= j < |group[k]| :: group[k][j] in events
    ensures GroupsHold(Snapshots(events), group)
    ensures Ready(kind, keys, group, Snapshots(events), (set e | e in events), Replays(kind, keys, Snapshots(events)))
  {
  }

  /** What the second loop starts from: a list for every key, within `pool`, and the keys' replays in `rs`. */
  ghost predicate Ready(kind: EntityKind, keys: seq<Uuid>, group: map<Uuid, seq<DomainEvent>>, found: seq<EventRecord>,
                        pool: set<DomainEvent>, rs: seq<Result<AggregateValue, ApplyError>>)
  {
    && (forall k | k in keys :: k in group) && Within(group, pool)
    && |rs| == |keys| && forall i | 0 <= i < |keys| :: rs[i] == Replay(kind, keys[i], found)
  }

  /** The second loop of `_load_multiple_up_to`: one entity per key, built from that key's list, in key order;
      `rs` holds the keys' replays, and `vals` the entities' values, or `err` the first replay failure. */
  method BuildGroups(kind: EntityKind, keys: seq<Uuid>, group: map<Uuid, seq<DomainEvent>>, ghost found: seq<EventRecord>,
                     ghost pool: set<DomainEvent>, ghost rs: seq<Result<AggregateValue, ApplyError>>)
    returns (entities: seq<Aggregate>, ghost vals: seq<AggregateValue>, err: Option<LoadError>)
    requires Ready(kind, keys, group, found, pool, rs) && GroupsHold(found, group)
    modifies pool
    ensures err.Some? ==> Collect(rs) == Err(err.value)
    ensures err.None? ==> && Collect(rs) == Ok(vals) && |entities| == |vals|
                          && (forall j | 0 <= j < |entities| :: fresh(entities[j]))
                          && forall j | 0 <= j < |entities| :: Holds(entities[j], vals[j])
  {
    vals, entities, err := [], [], None;
    var n := 0;
    while n < |keys|
      invariant 0 <= n <= |keys|
      invariant GroupsHold(found, group)
      invariant Collect(rs[..n]) == Ok(vals) && |entities| == n && err.None?
      invariant forall j | 0 <= j < n :: fresh(entities[j])
      invariant forall j | 0 <= j < n :: Holds(entities[j], vals[j])
    {
      var entity;
      ghost var v;
      entity, v, err := BuildNext(kind, keys, group, found, pool, rs, n, vals);
      if err.Some? {
        return;
      }
      entities, vals := entities + [entity], vals + [v];
      n := n + 1;
    }
    assert rs[..n] == rs;
  }

  /** One turn of that loop: the entity for the key at `n`, or the replay failure that ends the load. */
  method BuildNext(kind: EntityKind, keys: seq<Uuid>, group: map<Uuid, seq<DomainEvent>>, ghost found: seq<EventRecord>,
                   ghost pool: set<DomainEvent>, ghost rs: seq<Result<AggregateValue, ApplyError>>, n: nat,
                   ghost vals: seq<AggregateValue>)
    returns (entity: Aggregate, ghost v: AggregateValue, err: Option<LoadError>)
    requires Ready(kind, keys, group, found, pool, rs) && GroupsHold(found, group)
    requires n < |keys| && Collect(rs[..n]) == Ok(vals)
    modifies pool
    ensures GroupsHold(found, group)
    ensures err.Some? ==> Collect(rs) == Err(err.value)
    ensures err.None? ==> Collect(rs[..n + 1]) == Ok(vals + [v]) && fresh(entity) && Holds(entity, v)
  {
    var e;
    entity, e := BuildOne(kind, keys[n], group, found);
    v := entity.Value();
    CollectStep(rs, n);
    if e.Some? {
      CollectStops(rs, n + 1);
      return entity, v, Some(ReplayFailed(e.value));
    }
    err := None;
  }

  /** `self._build_entity_for_events(event_stream_id, event_group[event_stream_id])`: the key's replay; the lists,
      whose events all carry their stream's id already, are left as they were. */
  method BuildOne(kind: EntityKind, k: Uuid, group: map<Uuid, seq<DomainEvent>>, ghost found: seq<EventRecord>)
    returns (entity: Aggregate, err: Option<ApplyError>)
    requires k in group && GroupsHold(found, group)
    modifies set e | e in group[k]
    ensures GroupsHold(found, group)
    ensures fresh(entity) && entity.Valid() && entity.menuItems == []
    ensures Replay(kind, k, found).Err? ==> err == Some(Replay(kind, k, found).error)
    ensures Replay(kind, k, found).Ok? ==> err.None? && entity.uncommittedEvents == [] && entity.Value() == Replay(kind, k, found).value
  {
    entity, err := BuildEntityForEvents(kind, k, group[k]);
    forall k' | k' in group ensures Snapshots(group[k']) == EventsOf(found, k') {
      forall m | 0 <= m < |group[k']| ensures group[k'][m].Snapshot() == old(group[k'][m].Snapshot()) {
        assert old(group[k'][m].Snapshot()) == EventsOf(found, k')[m];
      }
    }
    if err.None? {
      FoldShape(Fresh(k, BaseState(kind)), EventsOf(found, k));
      ReplayObservesNothing(k, EventsOf(found, k));
      assert |Snapshots(entity.uncommittedEvents)| == 0;
    }
  }

  /** The first loop of `_load_multiple_up_to`: each event appended to its stream's list, the lists keyed by stream
      id in the order the streams first appear. */
  method GroupByStream(events: seq<DomainEvent>) returns (group: map<Uuid, seq<DomainEvent>>, keys: seq<Uuid>)
    requires forall i | 0 <= i < |events| :: events[i].eventStreamId.Some?
    ensures Grouping(Snapshots(events), group, keys)
    ensures forall k, j | k in group && 0 <= j < |group[k]| :: group[k][j] in events
  {
    ghost var before := Snapshots(events);
    group, keys := map[], [];
    var i := 0;
    while i < |events|
      invariant 0 <= i <= |events|
      invariant Grouping(before[..i], group, keys)
      invariant forall k, j | k in group && 0 <= j < |group[k]| :: group[k][j] in events
    {
      TakeSnoc(before, i);
      group, keys := AddToGroup(group, keys, events[i], before[..i], events);
      i := i + 1;
    }
    assert before[..i] == before;
  }

  /** `event_group` and its keys hold, for the events so far, each stream's events in order, under the keys in
      first-seen order. */
  ghost predicate Grouping(done: seq<EventRecord>, group: map<Uuid, seq<DomainEvent>>, keys: seq<Uuid>)
    reads set k, i | k in group && 0 <= i < |group[k]| :: group[k][i]
  {
    && keys == StreamsOf(done)
    && (forall k :: k in group <==> k in keys)
    && GroupsHold(done, group)
  }

  /** Each list of `event_group` holds its stream's events in order. */
  ghost predicate GroupsHold(done: seq<EventRecord>, group: map<Uuid, seq<DomainEvent>>)
    reads set k, i | k in group && 0 <= i < |group[k]| :: group[k][i]
  {
    forall k | k in group :: Snapshots(group[k]) == EventsOf(done, k)
  }

  /** One step of the first loop: open the event's list when its stream is new, then append the event. */
  method AddToGroup(group: map<Uuid, seq<DomainEvent>>, keys: seq<Uuid>, e: DomainEvent, ghost done: seq<EventRecord>,
                    ghost pool: seq<DomainEvent>)
    returns (group': map<Uuid, seq<DomainEvent>>, keys': seq<Uuid>)
    requires e.eventStreamId.Some? && Grouping(done, group, keys)
    requires e in pool && forall k, j | k in group && 0 <= j < |group[k]| :: group[k][j] in pool
    ensures Grouping(done + [e.Snapshot()], group', keys')
    ensures forall k, j | k in group' && 0 <= j < |group'[k]| :: group'[k][j] in pool
    ensures forall k :: k in group' <==> k in group || k == e.eventStreamId.value
    ensures forall k | k in group' :: group'[k] == (if k in group then group[k] else []) + (if k == e.eventStreamId.value then [e] else [])
  {
    var k := e.eventStreamId.value;
    group', keys' := group, keys;
    if k !in group' {
      group' := group'[k := []];
      keys' := keys' + [k];
    }
    group' := group'[k := group'[k] + [e]];
    GroupingStep(done, group, keys, e, group', keys');
  }

  /** Appending an event to its stream's list, opening the list first when needed, keeps the grouping. */
  lemma GroupingStep(done: seq<EventRecord>, group: map<Uuid, seq<DomainEvent>>, keys: seq<Uuid>, e: DomainEvent,
                     group': map<Uuid, seq<DomainEvent>>, keys': seq<Uuid>)
    requires e.eventStreamId.Some? && Grouping(done, group, keys)
    requires keys' == AddAbsent(keys, e.eventStreamId.value)
    requires forall k :: k in group' <==> k in group || k == e.eventStreamId.value
    requires forall k | k in group' :: group'[k] == (if k in group then group[k] else []) + (if k == e.eventStreamId.value then [e] else [])
    ensures Grouping(done + [e.Snapshot()], group', keys')
  {
    var x := e.Snapshot();
    assert (done + [x])[..|done|] == done;
    assert keys' == StreamsOf(done + [x]);
    forall k' | k' in group' ensures Snapshots(group'[k']) == EventsOf(done + [x], k') {
      if k' !in group {
        Unseen(done, k');
      }
      ListStep(done, if k' in group then group[k'] else [], e, k');
    }
  }

  /** A stream that is not among the keys has no events. */
  lemma Unseen(done: seq<EventRecord>, k: Uuid)
    requires k !in StreamsOf(done)
    ensures EventsOf(done, k) == []
  {
    EventsOfMembers(done, k);
  }

  /** One stream's list after the step: its old list (empty for a new stream), with the event when it is theirs. */
  lemma ListStep(done: seq<EventRecord>, list: seq<DomainEvent>, e: DomainEvent, k: Uuid)
    requires Snapshots(list) == EventsOf(done, k)
    ensures Snapshots(list + (if e.eventStreamId == Some(k) then [e] else [])) ==
            EventsOf(done + [e.Snapshot()], k)
  {
    EventsOfSnoc(done, e.Snapshot(), k);
    SnapshotsSnoc(list, e);
  }

  lemma SnapshotsSnoc(es: seq<DomainEvent>, e: DomainEvent)
    ensures Snapshots(es + [e]) == Snapshots(es) + [e.Snapshot()]
  {
  }
}
