/**
 * The translator between domain events and stored envelopes: the tag registry,
 * the envelope of an event (with the per-batch user cache) and the event of an
 * envelope.
 */
module Translation {
  import opened Results
  import opened Ids
  import opened Records
  import opened Lists
  import opened Events
  import R = RestaurantEvents

  datatype TranslationError =
    | UnknownEventType(tag: string)
    | BadData(dataError: DataError)
    | BadEvent(constructionError: ConstructionError)
    | BadId(cleanError: R.CleanError)
    | UnknownUser(userId: int)

  /** The `event_mapping` dict: type tag to event class. */
  type EventMapping = map<string, Kind>

  /** The dict built by assigning `mapping[tag] = class` for each class in turn. */
  function RegistryOf(kinds: seq<Kind>): (reg: EventMapping)
    ensures forall k | k in kinds :: Tag(k) in reg
    ensures forall t | t in reg :: reg[t] in kinds && Tag(reg[t]) == t
    decreases |kinds|
  {
    if kinds == [] then map[]
    else
      var k := kinds[|kinds| - 1];
      assert kinds == kinds[..|kinds| - 1] + [k];
      RegistryOf(kinds[..|kinds| - 1])[Tag(k) := k]
  }

  /** The dict after one more assignment. */
  lemma RegistryOfSnoc(kinds: seq<Kind>, i: nat)
    requires i < |kinds|
    ensures RegistryOf(kinds[..i + 1]) == RegistryOf(kinds[..i])[Tag(kinds[i]) := kinds[i]]
  {
    assert kinds[..i + 1][..i] == kinds[..i];
  }

  /** Tags being unique, every registered class is found under its own tag. */
  lemma RegistryLookup(kinds: seq<Kind>, k: Kind)
    requires k in kinds
    ensures Tag(k) in RegistryOf(kinds) && RegistryOf(kinds)[Tag(k)] == k
  {
    TagInjective(RegistryOf(kinds)[Tag(k)], k);
  }

  /** `__subclasses__()`: only the classes that derive from the base directly. */
  function DirectSubclasses(kinds: seq<Kind>): (r: seq<Kind>)
    ensures forall k :: k in r <==> k in kinds && Parent(k).None?
    decreases |kinds|
  {
    if kinds == [] then []
    else (if Parent(kinds[0]).None? then [kinds[0]] else []) + DirectSubclasses(kinds[1..])
  }

  /** The registry as the constructor builds it, from the direct subclasses only. */
  function RegistryAsWritten(): EventMapping
  {
    RegistryOf(DirectSubclasses(AllKinds))
  }

  /** The registry of every declared event class. */
  function Registry(): EventMapping
  {
    RegistryOf(AllKinds)
  }

  /** Every event class is registered under its tag. */
  lemma RegistryComplete(k: Kind)
    ensures Tag(k) in Registry() && Registry()[Tag(k)] == k
  {
    AllKindsComplete(k);
    RegistryLookup(AllKinds, k);
  }

  /** As written, the tag of `MenuItemRemoved`, a subclass of `MenuItemAdded`, is not registered. */
  lemma RegistryAsWrittenMissesRemoved()
    ensures Tag(RestaurantKind(R.ItemRemoved)) !in RegistryAsWritten()
  {
    var reg, removed := RegistryAsWritten(), RestaurantKind(R.ItemRemoved);
    forall t | t in reg ensures t != Tag(removed) {
      TagsDistinct(reg[t], removed);
    }
  }

  /** `create_from_event`: the class's payload read from the blob, and the envelope's user id,
      revision and time passed to the base constructor; the result has no stream id yet. */
  function CreateFromEvent(k: Kind, env: Envelope): (r: Result<EventRecord, TranslationError>)
    ensures r.Ok? ==> && r.value.eventStreamId.None? && !r.value.firstObservation
                      && r.value.userId == env.userId && r.value.revision == env.revision
                      && r.value.timestamp == env.time && KindOf(r.value.payload) == k
    ensures r.Ok? <==> FromData(k, env.data).Ok? && env.revision >= 0
    ensures FromData(k, env.data).Err? ==> r == Err(BadData(FromData(k, env.data).error))
  {
    match FromData(k, env.data)
    case Err(d) => Err(BadData(d))
    case Ok(p) =>
      match CheckConstruction(Some(env.userId), Some(env.revision))
      case Some(c) => Err(BadEvent(c))
      case None => Ok(EventRecord(None, env.userId, env.revision, env.time, false, p))
  }

  /** `translate_event_to_domain_event`: look the tag up, build the event, bind the stream id, clean. */
  function FromEnvelope(reg: EventMapping, env: Envelope): (r: Result<EventRecord, TranslationError>)
    ensures env.eventType !in reg ==> r == Err(UnknownEventType(env.eventType))
    ensures r.Ok? ==> && env.eventType in reg && KindOf(r.value.payload) == reg[env.eventType]
                      && r.value.eventStreamId == env.eventStreamId && !r.value.firstObservation
                      && r.value.userId == env.userId && r.value.revision == env.revision
                      && r.value.timestamp == env.time && Hydrated(r.value.payload)
  {
    if env.eventType !in reg then Err(UnknownEventType(env.eventType))
    else
      var e :- CreateFromEvent(reg[env.eventType], env);
      match Clean(e.payload)
      case Err(c) => Err(BadId(c))
      case Ok(p) => Ok(e.(eventStreamId := env.eventStreamId, payload := p))
  }

  /** The envelope of an event: its stream id, revision, time, user, tag, and the blob of its encoded payload. */
  function ToEnvelope(e: EventRecord): Envelope
  {
    Envelope(e.eventStreamId, e.revision, Tag(KindOf(e.payload)), e.timestamp, e.userId, Fields(Encode(e.payload)))
  }

  /** An event with in-memory payload survives the trip to an envelope and back, except for the observation flag. */
  lemma RoundTrip(e: EventRecord)
    requires Hydrated(e.payload)
    ensures FromEnvelope(Registry(), ToEnvelope(e)) == Ok(e.(firstObservation := false))
  {
    RegistryComplete(KindOf(e.payload));
    FromDataOfFields(e.payload);
    CleanUndoesEncode(e.payload);
  }

  /** An envelope that reads back, and whose blob holds exactly its class's keys, is the envelope of what it reads back as. */
  lemma EnvelopeRoundTrip(env: Envelope)
    requires FromEnvelope(Registry(), env).Ok?
    requires forall n :: n in env.data <==> n in FieldNames(Registry()[env.eventType])
    ensures ToEnvelope(FromEnvelope(Registry(), env).value) == env
  {
    var k := Registry()[env.eventType];
    var p := FromData(k, env.data).value;
    FieldsOfFromData(k, env.data);
    EncodeUndoesClean(p);
  }

  /** As written, reloading any `MenuItemRemoved` fails on the registry lookup. */
  lemma AsWrittenRejectsRemoved(e: EventRecord)
    requires KindOf(e.payload) == RestaurantKind(R.ItemRemoved)
    ensures FromEnvelope(RegistryAsWritten(), ToEnvelope(e)) == Err(UnknownEventType(Tag(RestaurantKind(R.ItemRemoved))))
  {
    var env := ToEnvelope(e);
    assert env.eventType == Tag(RestaurantKind(R.ItemRemoved));
    RegistryAsWrittenMissesRemoved();
  }

  /** `_translate_individual_event`: the user must exist in the directory. */
  function TranslateEvent(dir: Directory, e: EventRecord): (r: Result<Envelope, TranslationError>)
    ensures r.Ok? <==> e.userId in dir
    ensures r.Err? ==> r.error == UnknownUser(e.userId)
  {
    if e.userId in dir then Ok(ToEnvelope(e)) else Err(UnknownUser(e.userId))
  }

  /** `translate_to_django_models`: one envelope per event, in order; the first unknown user aborts. */
  function TranslateBatch(dir: Directory, es: seq<EventRecord>): (r: Result<seq<Envelope>, TranslationError>)
    ensures r.Ok? <==> forall i | 0 <= i < |es| :: es[i].userId in dir
    ensures r.Ok? ==> |r.value| == |es| && forall i | 0 <= i < |es| :: r.value[i] == ToEnvelope(es[i])
    ensures r.Err? ==> exists i | 0 <= i < |es| :: es[i].userId !in dir && r.error == UnknownUser(es[i].userId)
    decreases |es|
  {
    if es == [] then Ok([])
    else if es[0].userId !in dir then Err(UnknownUser(es[0].userId))
    else
      match TranslateBatch(dir, es[1..])
      case Err(x) => assert forall i | 0 <= i < |es[1..]| :: es[1..][i] == es[i + 1]; Err(x)
      case Ok(rest) => assert forall i | 0 <= i < |es[1..]| :: es[1..][i] == es[i + 1]; Ok([ToEnvelope(es[0])] + rest)
  }

  /** A batch whose first `i` users exist and whose user `i` does not fails on user `i`. */
  lemma {:induction false} TranslateBatchStops(dir: Directory, es: seq<EventRecord>, i: nat)
    requires i < |es| && es[i].userId !in dir
    requires forall j | 0 <= j < i :: es[j].userId in dir
    ensures TranslateBatch(dir, es) == Err(UnknownUser(es[i].userId))
    decreases i
  {
    if i > 0 {
      TranslateBatchStops(dir, es[1..], i - 1);
    }
  }

  /** One more translated event extends the translated prefix. */
  lemma EnvelopesSnoc(out: seq<Envelope>, es: seq<EventRecord>, i: nat, x: Envelope)
    requires i < |es| && |out| == i && forall j | 0 <= j < i :: out[j] == ToEnvelope(es[j])
    requires x == ToEnvelope(es[i])
    ensures forall j | 0 <= j < i + 1 :: (out + [x])[j] == ToEnvelope(es[j])
  {
  }

  /** The payload of each event of a batch: encoded once the event has been translated, as it was before that.
      Encoding being idempotent, an event listed twice is encoded once. */
  ghost predicate PayloadsAfter(events: seq<DomainEvent>, before: seq<EventRecord>, i: nat)
    reads set e | e in events
  {
    |events| == |before| && i <= |events| &&
    forall j | 0 <= j < |events| ::
      events[j].Snapshot() == before[j].(payload := if events[j] in events[..i] then Encode(before[j].payload) else before[j].payload)
  }

  /** Each event as it was, or with only its payload changed by `encode_data_before_save`: what a batch
      translation leaves behind, whether or not it got to the end. */
  predicate EncodedOrKept(events: seq<DomainEvent>, before: seq<EventRecord>)
    reads set e | e in events
  {
    |events| == |before| &&
    forall j | 0 <= j < |events| ::
      events[j].Snapshot() == before[j] || events[j].Snapshot() == before[j].(payload := Encode(before[j].payload))
  }

  /** However far the loop got, every event is kept or encoded. */
  lemma PayloadsEncodedOrKept(events: seq<DomainEvent>, before: seq<EventRecord>, i: nat)
    requires PayloadsAfter(events, before, i)
    ensures EncodedOrKept(events, before)
  {
    forall j | 0 <= j < |events|
      ensures events[j].Snapshot() == before[j] || events[j].Snapshot() == before[j].(payload := Encode(before[j].payload))
    {
      if events[j] in events[..i] {
        assert events[j].Snapshot() == before[j].(payload := Encode(before[j].payload));
      } else {
        assert events[j].Snapshot() == before[j];
      }
    }
  }

  /** Event `i` of the batch translates to the envelope of its original attributes. */
  lemma PayloadsCurrent(events: seq<DomainEvent>, before: seq<EventRecord>, i: nat)
    requires PayloadsAfter(events, before, i) && i < |events|
    ensures ToEnvelope(events[i].Snapshot()) == ToEnvelope(before[i])
  {
    EncodeIdempotent(before[i].payload);
  }

  /** The cache holding the directory entries of the given users. */
  function Fetched(users: seq<int>, dir: Directory): map<int, User>
    requires forall u | u in users :: u in dir
    decreases |users|
  {
    if users == [] then map[]
    else
      var last := users[|users| - 1];
      assert last in users && forall u | u in users[..|users| - 1] :: u in users;
      Fetched(users[..|users| - 1], dir)[last := dir[last]]
  }

  /** A user is cached exactly when it has been fetched, with its directory entry. */
  lemma {:induction false} FetchedSpec(users: seq<int>, dir: Directory)
    requires forall u | u in users :: u in dir
    ensures forall u :: u in Fetched(users, dir) <==> u in users
    ensures forall u | u in Fetched(users, dir) :: Fetched(users, dir)[u] == dir[u]
    decreases |users|
  {
    if users != [] {
      assert users == users[..|users| - 1] + [users[|users| - 1]];
      FetchedSpec(users[..|users| - 1], dir);
    }
  }

  /** The user cache after the first `i` events: every user fetched so far, each fetched once, in order. */
  ghost predicate CacheAfter(cache: map<int, User>, queried: seq<int>, ids: seq<int>, i: nat, dir: Directory)
  {
    && i <= |ids|
    && queried == FirstOccurrences(ids[..i])
    && (forall u | u in queried :: u in dir)
    && cache == Fetched(queried, dir)
  }

  /** One more event: a cached user is reused, an uncached one is fetched and recorded. */
  lemma CacheStep(cache: map<int, User>, queried: seq<int>, ids: seq<int>, i: nat, dir: Directory)
    requires CacheAfter(cache, queried, ids, i, dir) && i < |ids| && ids[i] in dir
    ensures if ids[i] in queried then ids[i] in cache && CacheAfter(cache, queried, ids, i + 1, dir)
            else ids[i] !in cache && CacheAfter(cache[ids[i] := dir[ids[i]]], queried + [ids[i]], ids, i + 1, dir)
  {
    assert ids[..i + 1][..i] == ids[..i];
    assert FirstOccurrences(ids[..i + 1]) == AddAbsent(queried, ids[i]);
    FetchedSpec(queried, dir);
    if ids[i] !in queried {
      var more := queried + [ids[i]];
      assert more[..|queried|] == queried;
      assert Fetched(more, dir) == cache[ids[i] := dir[ids[i]]];
    }
  }

  /** The cache only ever holds directory entries. */
  lemma CacheSound(cache: map<int, User>, queried: seq<int>, ids: seq<int>, i: nat, dir: Directory)
    requires CacheAfter(cache, queried, ids, i, dir)
    ensures forall u | u in cache :: u in dir && cache[u] == dir[u]
  {
    FetchedSpec(queried, dir);
  }

  /** The user ids of a list of events. */
  function UserIds(es: seq<EventRecord>): (ids: seq<int>)
    ensures |ids| == |es| && forall i | 0 <= i < |es| :: ids[i] == es[i].userId
  {
    seq(|es|, i requires 0 <= i < |es| => es[i].userId)
  }

  /** The distinct values of a list in order of first appearance: the users a batch looks up. */
  function FirstOccurrences(xs: seq<int>): seq<int>
    decreases |xs|
  {
    if xs == [] then []
    else AddAbsent(FirstOccurrences(xs[..|xs| - 1]), xs[|xs| - 1])
  }

  /** Each user of a batch is fetched exactly once. */
  lemma {:induction false} FirstOccurrencesDistinct(xs: seq<int>)
    ensures NoDuplicates(FirstOccurrences(xs))
    ensures forall x :: x in FirstOccurrences(xs) <==> x in xs
    decreases |xs|
  {
    if xs != [] {
      assert xs == xs[..|xs| - 1] + [xs[|xs| - 1]];
      FirstOccurrencesDistinct(xs[..|xs| - 1]);
    }
  }

  /** `DjangoEventTranslatorService`. */
  class Translator {
    const eventMapping: EventMapping

    /** The registry loop, over every declared event class. */
    constructor ()
      ensures eventMapping == Registry()
    {
      var m: EventMapping := map[];
      var i := 0;
      while i < |AllKinds|
        invariant 0 <= i <= |AllKinds|
        invariant m == RegistryOf(AllKinds[..i])
      {
        RegistryOfSnoc(AllKinds, i);
        m := m[Tag(AllKinds[i]) := AllKinds[i]];
        i := i + 1;
      }
      assert AllKinds[..|AllKinds|] == AllKinds;
      eventMapping := m;
    }

    /** `_build_data_blob`: run the encode hook, then copy the class's own attributes. */
    method BuildDataBlob(e: DomainEvent) returns (data: Data)
      modifies e`payload
      ensures e.Snapshot() == old(e.Snapshot()).(payload := Encode(old(e.payload)))
      ensures data == Fields(e.payload)
    {
      e.EncodeDataBeforeSave();
      var names := FieldNames(KindOf(e.payload));
      data := map[];
      var i := 0;
      while i < |names|
        invariant 0 <= i <= |names|
        invariant data == map n | n in names[..i] :: Field(e.payload, n)
      {
        assert names[..i + 1] == names[..i] + [names[i]];
        data := data[names[i] := Field(e.payload, names[i])];
        i := i + 1;
      }
      assert names[..|names|] == names;
    }

    /** `_translate_individual_event`: the user from the cache, or from the directory into the cache. */
    method TranslateIndividualEvent(e: DomainEvent, dir: Directory, cache: map<int, User>)
      returns (r: Result<Envelope, TranslationError>, cache': map<int, User>)
      requires forall u | u in cache :: u in dir && cache[u] == dir[u]
      modifies e`payload
      ensures r == TranslateEvent(dir, old(e.Snapshot()))
      ensures cache' == if e.userId in cache || e.userId !in dir then cache else cache[e.userId := dir[e.userId]]
      ensures r.Ok? ==> e.Snapshot() == old(e.Snapshot()).(payload := Encode(old(e.payload)))
      ensures r.Err? ==> e.Snapshot() == old(e.Snapshot())
    {
      cache' := cache;
      if e.userId !in cache {
        if e.userId !in dir {
          return Err(UnknownUser(e.userId)), cache';
        }
        cache' := cache[e.userId := dir[e.userId]];
      }
      var data := BuildDataBlob(e);
      r := Ok(Envelope(e.eventStreamId, e.revision, Tag(KindOf(e.payload)), e.timestamp, e.userId, data));
    }
  
    /** Event `i` of a batch in which the events before it have been translated. */
    method TranslateNext(events: seq<DomainEvent>, ghost before: seq<EventRecord>, i: nat, e: DomainEvent, dir: Directory, cache: map<int, User>)
      returns (r: Result<Envelope, TranslationError>, cache': map<int, User>)
      requires PayloadsAfter(events, before, i) && i < |events| && e == events[i]
      requires forall u | u in cache :: u in dir && cache[u] == dir[u]
      modifies e`payload
      ensures r == TranslateEvent(dir, before[i])
      ensures cache' == if e.userId in cache || e.userId !in dir then cache else cache[e.userId := dir[e.userId]]
      ensures r.Ok? ==> PayloadsAfter(events, before, i + 1)
      ensures r.Err? ==> PayloadsAfter(events, before, i)
    {
      PayloadsCurrent(events, before, i);
      r, cache' := TranslateIndividualEvent(e, dir, cache);
      if r.Ok? {
        assert events[..i + 1] == events[..i] + [events[i]];
        forall j | 0 <= j < |events|
          ensures events[j].Snapshot() == before[j].(payload := if events[j] in events[..i + 1] then Encode(before[j].payload) else before[j].payload)
        {
          EncodeIdempotent(before[j].payload);
        }
      }
    }

    /** `translate_to_django_models`: each event of the list in turn, sharing one user cache.
        `queried` lists the users fetched from the directory, one lookup per distinct user. */
    method TranslateToDjangoModels(events: seq<DomainEvent>, dir: Directory)
      returns (r: Result<seq<Envelope>, TranslationError>, queried: seq<int>)
      modifies set e | e in events
      ensures r == TranslateBatch(dir, old(Snapshots(events)))
      ensures r.Ok? ==> queried == FirstOccurrences(UserIds(old(Snapshots(events))))
      ensures r.Ok? ==> forall j | 0 <= j < |events| ::
                events[j].Snapshot() == old(events[j].Snapshot()).(payload := Encode(old(events[j].payload)))
      ensures EncodedOrKept(events, old(Snapshots(events)))
    {
      ghost var before := Snapshots(events);
      ghost var ids := UserIds(before);
      var cache: map<int, User> := map[];
      var out: seq<Envelope> := [];
      queried := [];
      var i := 0;
      while i < |events|
        invariant 0 <= i <= |events|
        invariant |out| == i && forall j | 0 <= j < i :: out[j] == ToEnvelope(before[j])
        invariant forall j | 0 <= j < i :: before[j].userId in dir
        invariant CacheAfter(cache, queried, ids, i, dir)
        invariant PayloadsAfter(events, before, i)
      {
        var e := events[i];
        assert ids[i] == e.userId;
        var hit := e.userId in cache;
        ghost var cache0, queried0 := cache, queried;
        CacheSound(cache, queried, ids, i, dir);
        var env;
        env, cache := TranslateNext(events, before, i, e, dir, cache);
        if env.Err? {
          TranslateBatchStops(dir, before, i);
          PayloadsEncodedOrKept(events, before, i);
          return Err(env.error), queried;
        }
        CacheStep(cache0, queried0, ids, i, dir);
        if !hit {
          queried := queried + [e.userId];
        }
        EnvelopesSnoc(out, before, i, env.value);
        out := out + [env.value];
        i := i + 1;
      }
      assert ids[..|events|] == ids;
      assert TranslateBatch(dir, before).Ok?;
      assert out == TranslateBatch(dir, before).value;
      r := Ok(out);
    }

    /** `translate_event_to_domain_event` on the class's registry. */
    method TranslateEventToDomainEvent(env: Envelope) returns (r: Result<DomainEvent, TranslationError>)
      ensures FromEnvelope(eventMapping, env).Err? ==> r == Err(FromEnvelope(eventMapping, env).error)
      ensures FromEnvelope(eventMapping, env).Ok? ==>
                r.Ok? && fresh(r.value) && r.value.Snapshot() == FromEnvelope(eventMapping, env).value
    {
      if env.eventType !in eventMapping {
        return Err(UnknownEventType(env.eventType));
      }
      var k := eventMapping[env.eventType];
      var payload := FromData(k, env.data);
      if payload.Err? {
        return Err(BadData(payload.error));
      }
      var made := NewEvent(payload.value, Some(env.userId), Some(env.revision), env.time);
      if made.Err? {
        return Err(BadEvent(made.error));
      }
      var e := made.value;
      if env.eventStreamId.Some? {
        e.SetEventStreamId(env.eventStreamId.value);
      }
      var failure := e.CleanDataPostSave();
      if failure.Some? {
        return Err(BadId(failure.value));
      }
      r := Ok(e);
    }
  }
}
