/**
 * The aggregate fold engine: entity state, the per-class handler tables, the
 * revision state machine of `apply`, its fold over a history, and the entity
 * class whose `Apply` method is proved against that fold.
 */
module Projections {
  import opened Results
  import opened Ids
  import opened Lists
  import opened Events
  import R = RestaurantEvents
  import M = MenuItemEvents

  /** The class-specific attributes of an entity: a restaurant or a menu item. */
  datatype AggregateState =
    | RestaurantState(name: string, yearOpened: Option<int>, address: string,
                      employees: seq<string>, menuItemIds: seq<R.ItemRef>)
    | MenuItemState(name: string, category: string, priceInCents: int)

  /** The attributes of a new `Restaurant`. */
  const NewRestaurant: AggregateState := RestaurantState("", None, "", [], [])

  /** The attributes of a new `MenuItem`. */
  const NewMenuItem: AggregateState := MenuItemState("", "", 0)

  /** The invariant the handlers keep: the employee and menu item lists hold no duplicates. */
  predicate Consistent(st: AggregateState)
  {
    st.RestaurantState? ==> NoDuplicates(st.employees) && NoDuplicates(st.menuItemIds)
  }

  /** The `Restaurant` handler table, one handler per restaurant event class. */
  function HandleRestaurant(st: AggregateState, e: R.RestaurantEvent): (r: AggregateState)
    requires st.RestaurantState?
    ensures r.RestaurantState?
    ensures Consistent(st) ==> Consistent(r)
    // apply_opened overwrites the three attributes and nothing else
    ensures e.RestaurantOpened? ==>
              r == st.(name := e.name, yearOpened := Some(e.year), address := e.location)
    // apply_hired adds the name once
    ensures e.EmployeeHired? ==>
              r == st.(employees := r.employees) && e.employeeName in r.employees &&
              (forall n :: n in r.employees <==> n in st.employees || n == e.employeeName)
    // apply_fired removes the name, keeping the other names
    ensures e.EmployeeFired? ==>
              r == st.(employees := r.employees) &&
              (NoDuplicates(st.employees) ==> e.employeeName !in r.employees) &&
              (forall n | n != e.employeeName :: n in r.employees <==> n in st.employees)
    // apply_menu_item_added adds the id once
    ensures e.MenuItemAdded? ==>
              r == st.(menuItemIds := r.menuItemIds) && e.menuItemId in r.menuItemIds &&
              (forall m :: m in r.menuItemIds <==> m in st.menuItemIds || m == e.menuItemId)
    // apply_menu_item_removed removes the id, keeping the other ids
    ensures e.MenuItemRemoved? ==>
              r == st.(menuItemIds := r.menuItemIds) &&
              (NoDuplicates(st.menuItemIds) ==> e.menuItemId !in r.menuItemIds) &&
              (forall m | m != e.menuItemId :: m in r.menuItemIds <==> m in st.menuItemIds)
  {
    match e
    case RestaurantOpened(name, year, location) =>
      st.(name := name, yearOpened := Some(year), address := location)
    case EmployeeHired(n) =>
      st.(employees := AddAbsent(st.employees, n))
    case EmployeeFired(n) =>
      RemoveFirstFacts(st.employees, n);
      st.(employees := RemoveFirst(st.employees, n))
    case MenuItemAdded(m) =>
      st.(menuItemIds := AddAbsent(st.menuItemIds, m))
    case MenuItemRemoved(m) =>
      RemoveFirstFacts(st.menuItemIds, m);
      st.(menuItemIds := RemoveFirst(st.menuItemIds, m))
  }

  /** The `MenuItem` handler table. */
  function HandleMenuItem(st: AggregateState, e: M.MenuItemEvent): (r: AggregateState)
    requires st.MenuItemState?
    ensures r.MenuItemState?
    // apply_created sets name and category
    ensures e.MenuItemCreated? ==> r == st.(name := e.name, category := e.category)
    // apply_price_delta adds the delta to the price
    ensures e.PriceChanged? ==> r == st.(priceInCents := r.priceInCents) && r.priceInCents - st.priceInCents == e.delta
  {
    match e
    case MenuItemCreated(name, category) => st.(name := name, category := category)
    case PriceChanged(delta) => st.(priceInCents := st.priceInCents + delta)
  }

  /** `event_map()[event.__class__](event)`: None when the entity's table has no entry for the class. */
  function Handle(st: AggregateState, p: Payload): (r: Option<AggregateState>)
    ensures r.Some? <==> (st.RestaurantState? && p.OfRestaurant?) || (st.MenuItemState? && p.OfMenuItem?)
    ensures r.Some? ==> r.value.RestaurantState? == st.RestaurantState?
    ensures r.Some? && Consistent(st) ==> Consistent(r.value)
  {
    match (st, p)
    case (RestaurantState(_, _, _, _, _), OfRestaurant(e)) => Some(HandleRestaurant(st, e))
    case (MenuItemState(_, _, _), OfMenuItem(e)) => Some(HandleMenuItem(st, e))
    case _ => None
  }

  datatype ApplyError =
    | StaleRevision(current: nat, attempted: nat)
    | RevisionGap(current: nat, attempted: nat)
    | UnhandledEventType(kind: Kind)

  /** The two revision checks of `apply`, stale first. */
  function CheckRevision(current: nat, attempted: nat): (r: Option<ApplyError>)
    ensures r.None? <==> attempted == current + 1
    ensures attempted <= current ==> r == Some(StaleRevision(current, attempted))
    ensures attempted > current + 1 ==> r == Some(RevisionGap(current, attempted))
  {
    if attempted <= current then Some(StaleRevision(current, attempted))
    else if attempted != current + 1 then Some(RevisionGap(current, attempted))
    else None
  }

  /** The attributes of an entity at one moment. */
  datatype AggregateValue = AggregateValue(
    id: Uuid,
    revision: nat,
    uncommitted: seq<EventRecord>,
    state: AggregateState)

  /** A new entity: revision 0, nothing uncommitted. */
  function Fresh(id: Uuid, st: AggregateState): AggregateValue
  {
    AggregateValue(id, 0, [], st)
  }

  /** An event on first observation is bound to the entity; a replayed event is left alone. */
  function Observe(id: Uuid, e: EventRecord): (r: EventRecord)
    ensures r.eventStreamId.Some?
    ensures r.revision == e.revision && r.payload == e.payload && r.userId == e.userId && r.timestamp == e.timestamp
    ensures e.eventStreamId.None? ==> r.eventStreamId == Some(id) && r.firstObservation
    ensures e.eventStreamId.Some? ==> r == e
  {
    if e.eventStreamId.None? then e.(eventStreamId := Some(id), firstObservation := true) else e
  }

  /** The outcome of `apply`: the entity and the event afterwards, and the error raised if any. */
  datatype Applied = Applied(agg: AggregateValue, event: EventRecord, error: Option<ApplyError>)

  /** `EventableEntity.apply` on the attributes of an entity and an event. */
  function Transition(a: AggregateValue, e: EventRecord): (r: Applied)
    // both revision checks run before anything changes
    ensures e.revision <= a.revision ==> r == Applied(a, e, Some(StaleRevision(a.revision, e.revision)))
    ensures e.revision > a.revision + 1 ==> r == Applied(a, e, Some(RevisionGap(a.revision, e.revision)))
    // otherwise the revision advances by one and the event is observed
    ensures e.revision == a.revision + 1 ==>
              && r.agg.id == a.id
              && r.agg.revision == a.revision + 1
              && r.event == Observe(a.id, e)
              && r.agg.uncommitted == a.uncommitted + (if e.eventStreamId.None? then [r.event] else [])
    // and then dispatched; a class missing from the table fails after the bookkeeping
    ensures e.revision == a.revision + 1 && Handle(a.state, e.payload).None? ==>
              r.error == Some(UnhandledEventType(KindOf(e.payload))) && r.agg.state == a.state
    ensures e.revision == a.revision + 1 && Handle(a.state, e.payload).Some? ==>
              r.error.None? && r.agg.state == Handle(a.state, e.payload).value
  {
    match CheckRevision(a.revision, e.revision)
    case Some(err) => Applied(a, e, Some(err))
    case None =>
      var seen := Observe(a.id, e);
      var booked := a.(revision := e.revision,
                       uncommitted := if e.eventStreamId.None? then a.uncommitted + [seen] else a.uncommitted);
      match Handle(a.state, e.payload)
      case None => Applied(booked, seen, Some(UnhandledEventType(KindOf(e.payload))))
      case Some(st) => Applied(booked.(state := st), seen, None)
  }

  /** Applying a history in order; the first failing `apply` ends the fold with its error. */
  function Fold(a: AggregateValue, es: seq<EventRecord>): Result<AggregateValue, ApplyError>
    decreases |es|
  {
    if es == [] then Ok(a)
    else
      var r := Transition(a, es[0]);
      if r.error.Some? then Err(r.error.value) else Fold(r.agg, es[1..])
  }

  /** One step of a fold: the first `apply`, then the rest. */
  lemma FoldFirst(a: AggregateValue, es: seq<EventRecord>)
    requires es != []
    ensures var t := Transition(a, es[0]);
      Fold(a, es) == if t.error.Some? then Err(t.error.value) else Fold(t.agg, es[1..])
  {
  }

  /** The events a fold binds on first observation, in application order. */
  function FirstObservations(id: Uuid, es: seq<EventRecord>): (r: seq<EventRecord>)
    ensures |r| <= |es|
    ensures forall i | 0 <= i < |r| :: r[i].eventStreamId == Some(id) && r[i].firstObservation
    decreases |es|
  {
    if es == [] then []
    else (if es[0].eventStreamId.None? then [Observe(id, es[0])] else []) + FirstObservations(id, es[1..])
  }

  /** Revisions start + 1, start + 2, ... in order. */
  predicate Consecutive(start: nat, es: seq<EventRecord>)
  {
    forall i | 0 <= i < |es| :: es[i].revision == start + i + 1
  }

  /** The entity's handler table has an entry for the payload's class. */
  predicate Matches(st: AggregateState, p: Payload)
  {
    (st.RestaurantState? && p.OfRestaurant?) || (st.MenuItemState? && p.OfMenuItem?)
  }

  predicate AllMatch(st: AggregateState, es: seq<EventRecord>)
  {
    forall i | 0 <= i < |es| :: Matches(st, es[i].payload)
  }

  /** What a successful fold leaves: id unchanged, one revision per event, consecutive revisions,
      every event handled, and exactly the first observations appended to the uncommitted events. */
  lemma {:induction false} FoldShape(a: AggregateValue, es: seq<EventRecord>)
    requires Fold(a, es).Ok?
    ensures Consecutive(a.revision, es) && AllMatch(a.state, es)
    ensures Fold(a, es).value.id == a.id
    ensures Fold(a, es).value.revision == a.revision + |es|
    ensures Fold(a, es).value.uncommitted == a.uncommitted + FirstObservations(a.id, es)
    ensures Fold(a, es).value.state.RestaurantState? == a.state.RestaurantState?
    ensures Consistent(a.state) ==> Consistent(Fold(a, es).value.state)
    decreases |es|
  {
    if es != [] {
      var r := Transition(a, es[0]);
      assert r.error.None?;
      FoldShape(r.agg, es[1..]);
      forall i | 0 <= i < |es| ensures es[i].revision == a.revision + i + 1 && Matches(a.state, es[i].payload) {
        if i > 0 {
          assert es[i] == es[1..][i - 1];
        }
      }
    }
  }

  /** Conversely, consecutive revisions whose classes are all handled always fold. */
  lemma {:induction false} FoldSucceeds(a: AggregateValue, es: seq<EventRecord>)
    requires Consecutive(a.revision, es) && AllMatch(a.state, es)
    ensures Fold(a, es).Ok?
    decreases |es|
  {
    if es != [] {
      var r := Transition(a, es[0]);
      assert Matches(a.state, es[0].payload);
      assert Consecutive(r.agg.revision, es[1..]) by {
        forall i | 0 <= i < |es[1..]| ensures es[1..][i].revision == r.agg.revision + i + 1 {
          assert es[1..][i] == es[i + 1];
        }
      }
      assert AllMatch(r.agg.state, es[1..]) by {
        forall i | 0 <= i < |es[1..]| ensures Matches(r.agg.state, es[1..][i].payload) {
          assert es[1..][i] == es[i + 1];
        }
      }
      FoldSucceeds(r.agg, es[1..]);
    }
  }

  /** Folding a concatenation is folding the first part, then the second. */
  lemma {:induction false} FoldAppend(a: AggregateValue, xs: seq<EventRecord>, ys: seq<EventRecord>)
    ensures Fold(a, xs + ys) == (if Fold(a, xs).Ok? then Fold(Fold(a, xs).value, ys) else Fold(a, xs))
    decreases |xs|
  {
    if xs == [] {
      assert xs + ys == ys;
    } else {
      assert (xs + ys)[0] == xs[0];
      assert (xs + ys)[1..] == xs[1..] + ys;
      FoldAppend(Transition(a, xs[0]).agg, xs[1..], ys);
    }
  }

  /** Folding one more event is one more `apply`. */
  lemma FoldSnoc(a: AggregateValue, es: seq<EventRecord>, e: EventRecord)
    requires Fold(a, es + [e]).Ok?
    ensures Fold(a, es).Ok?
    ensures Transition(Fold(a, es).value, e).error.None?
    ensures Fold(a, es + [e]).value == Transition(Fold(a, es).value, e).agg
  {
    FoldAppend(a, es, [e]);
  }

  /** A replay, in which every event already carries its stream id, records nothing as uncommitted. */
  lemma {:induction false} ReplayObservesNothing(id: Uuid, es: seq<EventRecord>)
    requires forall i | 0 <= i < |es| :: es[i].eventStreamId.Some?
    ensures FirstObservations(id, es) == []
    decreases |es|
  {
    if es != [] {
      assert es[0].eventStreamId.Some?;
      ReplayObservesNothing(id, es[1..]);
    }
  }

  /** The outcome of a fold without the attributes binding touches. */
  function Outcome(r: Result<AggregateValue, ApplyError>): Result<(nat, AggregateState), ApplyError>
  {
    match r
    case Ok(v) => Ok((v.revision, v.state))
    case Err(e) => Err(e)
  }

  /** Two histories with the same revisions and payloads, whatever their stream ids. */
  predicate SameHistory(es: seq<EventRecord>, fs: seq<EventRecord>)
  {
    |es| == |fs| && forall i | 0 <= i < |es| :: es[i].revision == fs[i].revision && es[i].payload == fs[i].payload
  }

  /** The revision and the state never depend on stream ids or observation flags, nor on the entity's id. */
  lemma {:induction false} FoldIgnoresBinding(a: AggregateValue, b: AggregateValue, es: seq<EventRecord>, fs: seq<EventRecord>)
    requires a.revision == b.revision && a.state == b.state
    requires SameHistory(es, fs)
    ensures Outcome(Fold(a, es)) == Outcome(Fold(b, fs))
    decreases |es|
  {
    if es != [] {
      assert es[0].revision == fs[0].revision && es[0].payload == fs[0].payload;
      assert SameHistory(es[1..], fs[1..]) by {
        forall i | 0 <= i < |es[1..]| ensures es[1..][i].revision == fs[1..][i].revision && es[1..][i].payload == fs[1..][i].payload {
          assert es[1..][i] == es[i + 1] && fs[1..][i] == fs[i + 1];
        }
      }
      FoldIgnoresBinding(Transition(a, es[0]).agg, Transition(b, fs[0]).agg, es[1..], fs[1..]);
    }
  }

  /** The sum of the price deltas in a history. */
  function DeltaSum(es: seq<EventRecord>): int
    decreases |es|
  {
    if es == [] then 0
    else (match es[0].payload case OfMenuItem(PriceChanged(d)) => d case _ => 0) + DeltaSum(es[1..])
  }

  /** A menu item's price is its starting price plus the sum of the deltas applied. */
  lemma {:induction false} FoldPrice(a: AggregateValue, es: seq<EventRecord>)
    requires a.state.MenuItemState? && Fold(a, es).Ok?
    ensures Fold(a, es).value.state.MenuItemState?
    ensures Fold(a, es).value.state.priceInCents == a.state.priceInCents + DeltaSum(es)
    decreases |es|
  {
    if es != [] {
      var r := Transition(a, es[0]);
      FoldPrice(r.agg, es[1..]);
    }
  }

  /** The last `RestaurantOpened` of a history, if any. */
  function LastOpened(es: seq<EventRecord>): (r: Option<R.RestaurantEvent>)
    ensures r.Some? ==> r.value.RestaurantOpened?
    decreases |es|
  {
    if es == [] then None
    else match es[|es| - 1].payload
      case OfRestaurant(RestaurantOpened(n, y, l)) => Some(R.RestaurantOpened(n, y, l))
      case _ => LastOpened(es[..|es| - 1])
  }

  /** After a fold, name, year and address are those of the last `RestaurantOpened`,
      or unchanged when there was none. */
  lemma {:induction false} FoldLastOpenedWins(a: AggregateValue, es: seq<EventRecord>)
    requires a.state.RestaurantState? && Fold(a, es).Ok?
    ensures Fold(a, es).value.state.RestaurantState?
    ensures var st := Fold(a, es).value.state;
      match LastOpened(es)
      case Some(o) => st.name == o.name && st.yearOpened == Some(o.year) && st.address == o.location
      case None => st.name == a.state.name && st.yearOpened == a.state.yearOpened && st.address == a.state.address
    decreases |es|
  {
    FoldShape(a, es);
    if es != [] {
      var init, e := es[..|es| - 1], es[|es| - 1];
      assert es == init + [e];
      FoldSnoc(a, init, e);
      FoldShape(a, init);
      FoldLastOpenedWins(a, init);
    }
  }

  /** Whether `n` is employed after a history: the last hire or fire naming `n` decides. */
  function Employed(n: string, es: seq<EventRecord>, initially: bool): bool
    decreases |es|
  {
    if es == [] then initially
    else
      var p := es[|es| - 1].payload;
      if p == OfRestaurant(R.EmployeeHired(n)) then true
      else if p == OfRestaurant(R.EmployeeFired(n)) then false
      else Employed(n, es[..|es| - 1], initially)
  }

  /** Whether `m` is on the menu after a history: the last addition or removal of `m` decides. */
  function Listed(m: R.ItemRef, es: seq<EventRecord>, initially: bool): bool
    decreases |es|
  {
    if es == [] then initially
    else
      var p := es[|es| - 1].payload;
      if p == OfRestaurant(R.MenuItemAdded(m)) then true
      else if p == OfRestaurant(R.MenuItemRemoved(m)) then false
      else Listed(m, es[..|es| - 1], initially)
  }

  /** Employee membership after a fold follows the last hire or fire of that person. */
  lemma {:induction false} FoldEmployees(a: AggregateValue, es: seq<EventRecord>, n: string)
    requires a.state.RestaurantState? && Consistent(a.state) && Fold(a, es).Ok?
    ensures Fold(a, es).value.state.RestaurantState?
    ensures n in Fold(a, es).value.state.employees <==> Employed(n, es, n in a.state.employees)
    decreases |es|
  {
    FoldShape(a, es);
    if es != [] {
      var init, e := es[..|es| - 1], es[|es| - 1];
      assert es == init + [e];
      FoldSnoc(a, init, e);
      FoldShape(a, init);
      FoldEmployees(a, init, n);
      var prev := Fold(a, init).value;
      TransitionState(prev, e);
      EmployeeStep(prev.state, e.payload, n);
    }
  }

  /** Menu membership after a fold follows the last addition or removal of that item. */
  lemma {:induction false} FoldMenuItems(a: AggregateValue, es: seq<EventRecord>, m: R.ItemRef)
    requires a.state.RestaurantState? && Consistent(a.state) && Fold(a, es).Ok?
    ensures Fold(a, es).value.state.RestaurantState?
    ensures m in Fold(a, es).value.state.menuItemIds <==> Listed(m, es, m in a.state.menuItemIds)
    decreases |es|
  {
    FoldShape(a, es);
    if es != [] {
      var init, e := es[..|es| - 1], es[|es| - 1];
      assert es == init + [e];
      FoldSnoc(a, init, e);
      FoldShape(a, init);
      FoldMenuItems(a, init, m);
      var prev := Fold(a, init).value;
      TransitionState(prev, e);
      MenuStep(prev.state, e.payload, m);
    }
  }

  /** A successful transition's state is the handler's. */
  lemma TransitionState(a: AggregateValue, e: EventRecord)
    requires Transition(a, e).error.None?
    ensures Handle(a.state, e.payload).Some? && Transition(a, e).agg.state == Handle(a.state, e.payload).value
  {
  }

  /** One handled event decides whether `n` is employed: a hire of `n` adds, a firing of `n` removes, any other
      event keeps. */
  lemma EmployeeStep(st: AggregateState, p: Payload, n: string)
    requires st.RestaurantState? && Consistent(st) && Handle(st, p).Some?
    ensures Handle(st, p).value.RestaurantState?
    ensures n in Handle(st, p).value.employees <==>
      if p == OfRestaurant(R.EmployeeHired(n)) then true
      else if p == OfRestaurant(R.EmployeeFired(n)) then false
      else n in st.employees
  {
    var e := p.r;
    assert Handle(st, p).value == HandleRestaurant(st, e);
  }

  /** One handled event decides whether `m` is on the menu, likewise. */
  lemma MenuStep(st: AggregateState, p: Payload, m: R.ItemRef)
    requires st.RestaurantState? && Consistent(st) && Handle(st, p).Some?
    ensures Handle(st, p).value.RestaurantState?
    ensures m in Handle(st, p).value.menuItemIds <==>
      if p == OfRestaurant(R.MenuItemAdded(m)) then true
      else if p == OfRestaurant(R.MenuItemRemoved(m)) then false
      else m in st.menuItemIds
  {
    var e := p.r;
    assert Handle(st, p).value == HandleRestaurant(st, e);
  }

  /** An `EventableEntity`: a `Restaurant` or a `MenuItem`, told apart by its state. */
  class Aggregate {
    const id: Uuid
    var revision: nat
    var uncommittedEvents: seq<DomainEvent>
    var state: AggregateState
    /** A restaurant's `menu_items`: the menu item objects added in this session (never rebuilt from events). */
    var menuItems: seq<Aggregate>

    /** Every uncommitted event was applied at or below the current revision, in increasing order. */
    ghost predicate Valid()
      reads this
    {
      && (forall i | 0 <= i < |uncommittedEvents| :: uncommittedEvents[i].revision <= revision)
      && (forall i, j | 0 <= i < j < |uncommittedEvents| :: uncommittedEvents[i].revision < uncommittedEvents[j].revision)
    }

    /** The entity's attributes, with the uncommitted events as they now stand. */
    function Value(): AggregateValue
      reads this`revision, this`uncommittedEvents, this`state, uncommittedEvents
    {
      AggregateValue(id, revision, Snapshots(uncommittedEvents), state)
    }

    /** `Restaurant(id)`: `generated` stands for the `uuid4()` used when no id is given. */
    constructor Restaurant(id: Option<Uuid>, generated: Uuid)
      ensures Valid()
      ensures Value() == Fresh(if id.Some? then id.value else generated, NewRestaurant)
      ensures menuItems == []
    {
      this.id := if id.Some? then id.value else generated;
      this.revision := 0;
      this.uncommittedEvents := [];
      this.state := NewRestaurant;
      this.menuItems := [];
    }

    /** `MenuItem(id)`, likewise. */
    constructor MenuItem(id: Option<Uuid>, generated: Uuid)
      ensures Valid()
      ensures Value() == Fresh(if id.Some? then id.value else generated, NewMenuItem)
      ensures menuItems == []
    {
      this.id := if id.Some? then id.value else generated;
      this.revision := 0;
      this.uncommittedEvents := [];
      this.state := NewMenuItem;
      this.menuItems := [];
    }

    /** `apply`: the revision checks, the first-observation bookkeeping, then the handler. */
    method Apply(e: DomainEvent) returns (r: Option<ApplyError>)
      requires Valid()
      modifies this`revision, this`uncommittedEvents, this`state, e`eventStreamId, e`firstObservation
      ensures Valid()
      ensures var out := Transition(old(Value()), old(e.Snapshot()));
        r == out.error && Value() == out.agg && e.Snapshot() == out.event
      ensures uncommittedEvents == old(uncommittedEvents) +
        (if old(e.revision == revision + 1 && e.eventStreamId.None?) then [e] else [])
    {
      var check := CheckRevision(revision, e.revision);
      if check.Some? {
        return check;
      }
      Bind(e);
      r := Dispatch(e.payload);
    }

    /** The bookkeeping half of `apply`: advance the revision; on first observation bind the event and keep it. */
    method Bind(e: DomainEvent)
      requires Valid() && e.revision == revision + 1
      modifies this`revision, this`uncommittedEvents, e`eventStreamId, e`firstObservation
      ensures Valid()
      ensures e.Snapshot() == Observe(id, old(e.Snapshot()))
      ensures uncommittedEvents == old(uncommittedEvents) + (if old(e.eventStreamId.None?) then [e] else [])
      ensures Value() == old(Value()).(revision := e.revision,
                uncommitted := if old(e.eventStreamId.None?) then old(Value().uncommitted) + [e.Snapshot()] else old(Value().uncommitted))
    {
      assert e !in uncommittedEvents;
      revision := e.revision;
      if e.eventStreamId.None? {
        e.SetEventStreamId(id);
        e.firstObservation := true;
        uncommittedEvents := uncommittedEvents + [e];
      }
    }

    /** `event_map()[event.__class__](event)`: the handler of the payload's class, or the missing-key failure. */
    method Dispatch(p: Payload) returns (r: Option<ApplyError>)
      modifies this`state
      ensures Handle(old(state), p).None? ==> r == Some(UnhandledEventType(KindOf(p))) && state == old(state)
      ensures Handle(old(state), p).Some? ==> r.None? && state == Handle(old(state), p).value
    {
      match Handle(state, p)
      case None =>
        r := Some(UnhandledEventType(KindOf(p)));
      case Some(st) =>
        state := st;
        r := None;
    }
  }
}
