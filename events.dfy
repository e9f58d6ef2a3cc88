/**
 * The domain event contract: the closed set of seven event classes, their tags
 * and payload blobs, construction with its validation, the stream-id setter and
 * the encode/clean hooks.
 */
module Events {
  import opened Results
  import opened Ids
  import opened Records
  import R = RestaurantEvents
  import M = MenuItemEvents

  /** The class-specific part of an event: which class it is, with that class's attributes. */
  datatype Payload = OfRestaurant(r: R.RestaurantEvent) | OfMenuItem(m: M.MenuItemEvent)

  /** One value per event class. */
  datatype Kind = RestaurantKind(rk: R.Kind) | MenuItemKind(mk: M.Kind)

  function KindOf(p: Payload): Kind
  {
    match p
    case OfRestaurant(e) => RestaurantKind(R.KindOf(e))
    case OfMenuItem(e) => MenuItemKind(M.KindOf(e))
  }

  /** `get_event_type`; every tag fits the `type` column. */
  function Tag(k: Kind): (t: string)
    ensures 0 < |t| <= TypeMaxLength
  {
    match k
    case RestaurantKind(rk) => R.Tag(rk)
    case MenuItemKind(mk) => M.Tag(mk)
  }

  /** The declared base class of each class, when it is not the event base class itself. */
  function Parent(k: Kind): Option<Kind>
  {
    match k
    case RestaurantKind(rk) => if R.Parent(rk).Some? then Some(RestaurantKind(R.Parent(rk).value)) else None
    case MenuItemKind(_) => None
  }

  /** Every declared event class, in the order the registry visits them. */
  const AllKinds: seq<Kind> := [
    RestaurantKind(R.Opened), RestaurantKind(R.Hired), RestaurantKind(R.Fired),
    RestaurantKind(R.ItemAdded), RestaurantKind(R.ItemRemoved),
    MenuItemKind(M.Created), MenuItemKind(M.Repriced)]

  lemma AllKindsComplete(k: Kind)
    ensures k in AllKinds
  {
    match k
    case RestaurantKind(rk) =>
      match rk {
        case Opened => assert AllKinds[0] == k;
        case Hired => assert AllKinds[1] == k;
        case Fired => assert AllKinds[2] == k;
        case ItemAdded => assert AllKinds[3] == k;
        case ItemRemoved => assert AllKinds[4] == k;
      }
    case MenuItemKind(mk) =>
      match mk {
        case Created => assert AllKinds[5] == k;
        case Repriced => assert AllKinds[6] == k;
      }
  }

  /** The seven tags are pairwise distinct, so a tag names one class. */
  lemma {:induction false} TagInjective(k1: Kind, k2: Kind)
    requires Tag(k1) == Tag(k2)
    ensures k1 == k2
  {
    match (k1, k2)
    case (RestaurantKind(a), RestaurantKind(b)) => R.TagInjective(a, b);
    case (MenuItemKind(a), MenuItemKind(b)) => M.TagInjective(a, b);
    case (RestaurantKind(_), MenuItemKind(_)) =>
    case (MenuItemKind(_), RestaurantKind(_)) =>
  }

  /** The same fact read the other way: distinct classes have distinct tags. */
  lemma {:induction false} TagsDistinct(k1: Kind, k2: Kind)
    requires k1 != k2
    ensures Tag(k1) != Tag(k2)
  {
    match (k1, k2)
    case (RestaurantKind(a), RestaurantKind(b)) => assert a != b;
    case (MenuItemKind(a), MenuItemKind(b)) => assert a != b;
    case (RestaurantKind(_), MenuItemKind(_)) =>
    case (MenuItemKind(_), RestaurantKind(_)) =>
  }

  function FieldNames(k: Kind): seq<string>
  {
    match k
    case RestaurantKind(rk) => R.FieldNames(rk)
    case MenuItemKind(mk) => M.FieldNames(mk)
  }

  function Field(p: Payload, name: string): Value
    requires name in FieldNames(KindOf(p))
  {
    match p
    case OfRestaurant(e) => R.Field(e, name)
    case OfMenuItem(e) => M.Field(e, name)
  }

  /** The payload blob of an event: its class's attributes and none of the base contract's. */
  function Fields(p: Payload): Data
  {
    match p
    case OfRestaurant(e) => R.Fields(e)
    case OfMenuItem(e) => M.Fields(e)
  }

  /** The blob holds the class's attributes with their values, and none of the base contract's. */
  lemma FieldsShape(p: Payload)
    ensures forall n :: n in Fields(p) <==> n in FieldNames(KindOf(p))
    ensures forall n | n in Fields(p) :: Fields(p)[n] == Field(p, n)
    ensures forall n | n in ["event_stream_id", "user_id", "revision", "timestamp", "first_observation"] :: n !in Fields(p)
  {
  }

  /** `create_from_event`, restricted to the payload. */
  function FromData(k: Kind, data: Data): (r: Result<Payload, DataError>)
    ensures r.Ok? ==> KindOf(r.value) == k
  {
    match k
    case RestaurantKind(rk) => var e :- R.FromData(rk, data); Ok(OfRestaurant(e))
    case MenuItemKind(mk) => var e :- M.FromData(mk, data); Ok(OfMenuItem(e))
  }

  /** `encode_data_before_save`: the base no-op unless the class overrides it. */
  function Encode(p: Payload): (q: Payload)
    ensures KindOf(q) == KindOf(p)
    ensures p.OfMenuItem? ==> q == p
  {
    match p
    case OfRestaurant(e) => OfRestaurant(R.Encode(e))
    case OfMenuItem(_) => p
  }

  /** `clean_data_post_save`: the base no-op unless the class overrides it. */
  function Clean(p: Payload): (q: Result<Payload, R.CleanError>)
    ensures q.Ok? ==> KindOf(q.value) == KindOf(p)
    ensures p.OfMenuItem? ==> q == Ok(p)
  {
    match p
    case OfRestaurant(e) => var c :- R.Clean(e); Ok(OfRestaurant(c))
    case OfMenuItem(_) => Ok(p)
  }

  /** Encoding twice is encoding once: `str` of a string is that string. */
  lemma EncodeIdempotent(p: Payload)
    ensures Encode(Encode(p)) == Encode(p)
  {
  }

  /** The in-memory form of a payload: menu item ids are UUIDs. */
  predicate Hydrated(p: Payload)
  {
    p.OfRestaurant? ==> R.Hydrated(p.r)
  }

  /** The clean hook undoes the encode hook on an in-memory payload. */
  lemma CleanUndoesEncode(p: Payload)
    requires Hydrated(p)
    ensures Clean(Encode(p)) == Ok(p)
  {
    if p.OfRestaurant? {
      R.CleanUndoesEncode(p.r);
    }
  }

  /** Reading back the blob of an encoded payload gives the encoded payload. */
  lemma FromDataOfFields(p: Payload)
    ensures FromData(KindOf(p), Fields(Encode(p))) == Ok(Encode(p))
  {
    match p
    case OfRestaurant(e) => R.FromDataOfFields(R.Encode(e));
    case OfMenuItem(e) => M.FromDataOfFields(e);
  }

  /** Why construction fails: `user_id` is None, or `revision` is None or negative. */
  datatype ConstructionError = MissingUserId | InvalidRevision

  /** The two checks of the base constructor, in their order. */
  function CheckConstruction(userId: Option<int>, revision: Option<int>): (r: Option<ConstructionError>)
    ensures r.None? <==> userId.Some? && revision.Some? && revision.value >= 0
    ensures userId.None? ==> r == Some(MissingUserId)
    ensures userId.Some? && r.Some? ==> r == Some(InvalidRevision)
  {
    if userId.None? then Some(MissingUserId)
    else if revision.None? || revision.value < 0 then Some(InvalidRevision)
    else None
  }

  /** The attributes of an event at one moment. */
  datatype EventRecord = EventRecord(
    eventStreamId: Option<Uuid>,
    userId: int,
    revision: nat,
    timestamp: Time,
    firstObservation: bool,
    payload: Payload)

  /** A domain event. User id, revision and timestamp are never reassigned after construction. */
  class DomainEvent {
    var eventStreamId: Option<Uuid>
    const userId: int
    const revision: nat
    const timestamp: Time
    var firstObservation: bool
    var payload: Payload

    /** The base constructor once its checks have passed. */
    constructor (payload: Payload, userId: int, revision: nat, timestamp: Time)
      ensures Snapshot() == EventRecord(None, userId, revision, timestamp, false, payload)
    {
      this.eventStreamId := None;
      this.userId := userId;
      this.revision := revision;
      this.timestamp := timestamp;
      this.firstObservation := false;
      this.payload := payload;
    }

    function Snapshot(): EventRecord
      reads this
    {
      EventRecord(eventStreamId, userId, revision, timestamp, firstObservation, payload)
    }

    /** `set_event_stream_id`: sets the stream id and nothing else. */
    method SetEventStreamId(id: Uuid)
      modifies this`eventStreamId
      ensures Snapshot() == old(Snapshot()).(eventStreamId := Some(id))
    {
      eventStreamId := Some(id);
    }

    method EncodeDataBeforeSave()
      modifies this`payload
      ensures Snapshot() == old(Snapshot()).(payload := Encode(old(payload)))
    {
      payload := Encode(payload);
    }

    /** On failure the attribute is left as it was (Python raises before assigning). */
    method CleanDataPostSave() returns (r: Option<R.CleanError>)
      modifies this`payload
      ensures Clean(old(payload)).Ok? ==> r.None? && Snapshot() == old(Snapshot()).(payload := Clean(old(payload)).value)
      ensures Clean(old(payload)).Err? ==> r == Some(Clean(old(payload)).error) && unchanged(this)
    {
      match Clean(payload)
      case Ok(p) => payload := p; r := None;
      case Err(e) => r := Some(e);
    }
  }

  /** `BaseEvent.__init__` with its validation: a user id is required, the revision must be a natural number. */
  method NewEvent(payload: Payload, userId: Option<int>, revision: Option<int>, timestamp: Time)
    returns (r: Result<DomainEvent, ConstructionError>)
    ensures CheckConstruction(userId, revision).Some? ==> r == Err(CheckConstruction(userId, revision).value)
    ensures CheckConstruction(userId, revision).None? ==>
              r.Ok? && fresh(r.value) &&
              r.value.Snapshot() == EventRecord(None, userId.value, revision.value, timestamp, false, payload)
  {
    match CheckConstruction(userId, revision)
    case Some(e) => r := Err(e);
    case None =>
      var event := new DomainEvent(payload, userId.value, revision.value, timestamp);
      r := Ok(event);
  }

  /** The attributes of a list of events. */
  function Snapshots(es: seq<DomainEvent>): (rs: seq<EventRecord>)
    reads es
    ensures |rs| == |es|
    ensures forall i | 0 <= i < |es| :: rs[i] == es[i].Snapshot()
  {
    seq(|es|, i requires 0 <= i < |es| reads es => es[i].Snapshot())
  }

  /** A blob holding exactly the class's keys is the blob of the payload read from it. */
  lemma FieldsOfFromData(k: Kind, data: Data)
    requires FromData(k, data).Ok?
    requires forall n :: n in data <==> n in FieldNames(k)
    ensures Fields(FromData(k, data).value) == data
  {
    match k
    case RestaurantKind(rk) => R.FieldsOfFromData(rk, data);
    case MenuItemKind(mk) => M.FieldsOfFromData(mk, data);
  }

  /** The encode hook undoes a successful clean hook. */
  lemma EncodeUndoesClean(p: Payload)
    requires Clean(p).Ok?
    ensures Encode(Clean(p).value) == p
  {
    if p.OfRestaurant? {
      R.EncodeUndoesClean(p.r);
    }
  }
}
