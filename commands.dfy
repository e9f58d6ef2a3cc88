/**
 * The command methods of `RestaurantService` and `MenuItemService`: each builds
 * new events at the entity's next revisions, applies them to the entity and
 * saves it. The user's id, the clock and `uuid4()` are parameters.
 */
module Commands {
  import opened Results
  import opened Ids
  import opened Records
  import opened Lists
  import opened Events
  import opened Projections
  import opened EventStore
  import opened EntityServices
  import opened Translation
  import R = RestaurantEvents
  import M = MenuItemEvents

  /** Why a command stopped: `apply` raised, the check of `fire_employee` failed, the `list.remove` of
      `remove_items_from_menu` raised, or `save` failed. */
  datatype CommandError =
    | ApplyFailed(applyError: ApplyError)
    | NotEmployed(employee: string)
    | NotOnMenu(item: Uuid)
    | SaveFailed(saveError: SaveError)

  // ----- the events a command issues -----

  /** A new event as a command builds it, `SomeEvent(..., user.id, revision)`, not yet bound to a stream. */
  function Issued(p: Payload, userId: int, revision: nat, now: Time): EventRecord
  {
    EventRecord(None, userId, revision, now, false, p)
  }

  /** The events issued for `ps` one after another, each at the revision after the previous one. */
  function IssuedAll(ps: seq<Payload>, userId: int, start: nat, now: Time): (es: seq<EventRecord>)
    ensures |es| == |ps| && Consecutive(start, es)
    ensures forall i | 0 <= i < |ps| :: es[i] == Issued(ps[i], userId, start + i + 1, now)
  {
    seq(|ps|, i requires 0 <= i < |ps| => Issued(ps[i], userId, start + i + 1, now))
  }

  /** An issued event as the entity records it: bound to the entity and marked as a first observation. */
  function Recorded(id: Uuid, p: Payload, userId: int, revision: nat, now: Time): EventRecord
  {
    EventRecord(Some(id), userId, revision, now, true, p)
  }

  /** Issuing after the first event is issuing the rest from the next revision. */
  lemma IssuedTail(ps: seq<Payload>, userId: int, start: nat, now: Time)
    requires ps != []
    ensures IssuedAll(ps, userId, start, now)[1..] == IssuedAll(ps[1..], userId, start + 1, now)
  {
    var es, fs := IssuedAll(ps, userId, start, now)[1..], IssuedAll(ps[1..], userId, start + 1, now);
    assert forall i | 0 <= i < |fs| :: es[i] == fs[i];
  }

  /** The issued events for `ps` as the entity `id` records them. */
  function RecordedAll(id: Uuid, ps: seq<Payload>, userId: int, start: nat, now: Time): seq<EventRecord>
  {
    seq(|ps|, i requires 0 <= i < |ps| => Recorded(id, ps[i], userId, start + i + 1, now))
  }

  /** A fold of issued events records each of them, bound to the entity, after the events already pending. */
  lemma IssuedRecorded(a: AggregateValue, ps: seq<Payload>, userId: int, now: Time)
    requires Fold(a, IssuedAll(ps, userId, a.revision, now)).Ok?
    ensures Fold(a, IssuedAll(ps, userId, a.revision, now)).value.uncommitted
         == a.uncommitted + RecordedAll(a.id, ps, userId, a.revision, now)
  {
    FoldShape(a, IssuedAll(ps, userId, a.revision, now));
    ObservedIssued(a.id, ps, userId, a.revision, now);
  }

  /** Issued events are all first observations, each recorded as bound to the stream. */
  lemma ObservedIssued(id: Uuid, ps: seq<Payload>, userId: int, start: nat, now: Time)
    ensures FirstObservations(id, IssuedAll(ps, userId, start, now)) == RecordedAll(id, ps, userId, start, now)
  {
    var es := IssuedAll(ps, userId, start, now);
    AllObserved(id, es);
    assert forall i | 0 <= i < |ps| :: FirstObservations(id, es)[i] == RecordedAll(id, ps, userId, start, now)[i];
  }

  // ----- applying them -----

  /** `entity.apply(SomeEvent(..., user.id, entity.revision + 1))`. */
  method ApplyNext(entity: Aggregate, p: Payload, userId: int, now: Time) returns (err: Option<ApplyError>)
    requires entity.Valid()
    modifies entity`revision, entity`uncommittedEvents, entity`state
    ensures entity.Valid()
    ensures var t := Transition(old(entity.Value()), Issued(p, userId, old(entity.revision) + 1, now));
      err == t.error && entity.Value() == t.agg
    ensures forall e | e in entity.uncommittedEvents :: e in old(entity.uncommittedEvents) || fresh(e)
  {
    var e := new DomainEvent(p, userId, entity.revision + 1, now);
    err := entity.Apply(e);
  }

  /** `for x in xs: entity.apply(...)`, one payload per element, each at the next revision; the first failing
      `apply` ends the loop. */
  method ApplyEach(entity: Aggregate, ps: seq<Payload>, userId: int, now: Time) returns (err: Option<ApplyError>)
    requires entity.Valid()
    modifies entity`revision, entity`uncommittedEvents, entity`state
    ensures entity.Valid()
    ensures var res := Fold(old(entity.Value()), IssuedAll(ps, userId, old(entity.revision), now));
      && (res.Ok? ==> err.None? && entity.Value() == res.value)
      && (res.Err? ==> err == Some(res.error))
    ensures forall e | e in entity.uncommittedEvents :: e in old(entity.uncommittedEvents) || fresh(e)
  {
    ghost var a, es := entity.Value(), IssuedAll(ps, userId, entity.revision, now);
    var i := 0;
    while i < |ps|
      invariant 0 <= i <= |ps| && entity.Valid()
      invariant entity.revision == a.revision + i
      invariant Fold(a, es) == Fold(entity.Value(), es[i..])
      invariant forall e | e in entity.uncommittedEvents :: e in old(entity.uncommittedEvents) || fresh(e)
    {
      ghost var v := entity.Value();
      err := ApplyNext(entity, ps[i], userId, now);
      ghost var rest := es[i..];
      assert rest[0] == Issued(ps[i], userId, v.revision + 1, now);
      assert rest[1..] == es[i + 1..];
      FoldFirst(v, rest);
      if err.Some? {
        return;
      }
      i := i + 1;
    }
    err := None;
  }

  // ----- saving the entity -----

  /** What a command leaves once its events are applied with `v` as the outcome: the entity at `v`'s revision
      and state, and the save of `v`'s uncommitted events, or its failure with nothing inserted and the entity
      still holding those events, each as it was or with its payload encoded. */
  predicate Committed(v: AggregateValue, users: Directory, before: seq<Envelope>, after: seq<Envelope>,
                      revision: nat, state: AggregateState, pending: seq<DomainEvent>, err: Option<CommandError>)
    reads set e | e in pending
  {
    var out := SaveRows(before, users, v.uncommitted);
    && revision == v.revision && state == v.state
    && (out.Ok? ==> err.None? && after == out.value && pending == [])
    && (out.Err? ==> err == Some(SaveFailed(out.error)) && after == before && EncodedOrKept(pending, v.uncommitted))
  }

  /** `self._event_persistence_service.save(entity)`, a failure reported as the command's. */
  method Commit(store: EventStore, entity: Aggregate) returns (err: Option<CommandError>)
    requires store.Valid()
    modifies store`rows, entity`uncommittedEvents, set e | e in entity.uncommittedEvents
    ensures store.Valid() && (old(entity.Valid()) ==> entity.Valid())
    ensures Committed(old(entity.Value()), store.users, old(store.rows), store.rows,
                      entity.revision, entity.state, entity.uncommittedEvents, err)
    ensures err.Some? ==> entity.uncommittedEvents == old(entity.uncommittedEvents)
  {
    var failure := store.Save(entity);
    err := if failure.Some? then Some(SaveFailed(failure.value)) else None;
  }

  // ----- RestaurantService -----

  /** `open_restaurant`: a new restaurant, `RestaurantOpened` applied at revision 1, then saved. `generated`
      stands for the `uuid4()` of `Restaurant()`. */
  method OpenRestaurant(store: EventStore, userId: int, name: string, location: string, year: int,
                        generated: Uuid, now: Time) returns (restaurant: Aggregate, err: Option<CommandError>)
    requires store.Valid()
    modifies store`rows
    ensures store.Valid() && fresh(restaurant) && restaurant.Valid() && restaurant.menuItems == []
    ensures restaurant.id == generated
    ensures Committed(Opened(generated, userId, name, location, year, now), store.users, old(store.rows), store.rows,
                      restaurant.revision, restaurant.state, restaurant.uncommittedEvents, err)
  {
    restaurant := NewOpened(userId, name, location, year, generated, now);
    err := Commit(store, restaurant);
  }

  /** The unsaved half of `open_restaurant`: `Restaurant()` with `RestaurantOpened` applied. */
  method NewOpened(userId: int, name: string, location: string, year: int, generated: Uuid, now: Time)
    returns (restaurant: Aggregate)
    ensures fresh(restaurant) && restaurant.Valid() && restaurant.menuItems == [] && restaurant.id == generated
    ensures restaurant.Value() == Opened(generated, userId, name, location, year, now)
    ensures forall e | e in restaurant.uncommittedEvents :: fresh(e)
  {
    restaurant := new Aggregate.Restaurant(None, generated);
    // cannot fail: a new restaurant is at revision 0 and handles `RestaurantOpened` (see `Opened`)
    var failed := ApplyNext(restaurant, OfRestaurant(R.RestaurantOpened(name, year, location)), userId, now);
  }

  /** The restaurant `open_restaurant` builds: revision 1, the given name, year and address, and the opening
      event recorded. */
  function Opened(id: Uuid, userId: int, name: string, location: string, year: int, now: Time): (v: AggregateValue)
    ensures v.id == id && v.revision == 1
    ensures v.state == NewRestaurant.(name := name, yearOpened := Some(year), address := location)
    ensures v.uncommitted == [Recorded(id, OfRestaurant(R.RestaurantOpened(name, year, location)), userId, 1, now)]
  {
    Transition(Fresh(id, NewRestaurant), Issued(OfRestaurant(R.RestaurantOpened(name, year, location)), userId, 1, now)).agg
  }

  /** The payloads of `hire_employees`: one `EmployeeHired` per name. */
  function Hires(names: seq<string>): (ps: seq<Payload>)
    ensures |ps| == |names| && forall i | 0 <= i < |names| :: ps[i] == OfRestaurant(R.EmployeeHired(names[i]))
  {
    seq(|names|, i requires 0 <= i < |names| => OfRestaurant(R.EmployeeHired(names[i])))
  }

  /** `hire_employees`: one `EmployeeHired` per name at the next revisions, then saved. */
  method HireEmployees(store: EventStore, restaurant: Aggregate, userId: int, names: seq<string>, now: Time)
    returns (err: Option<CommandError>)
    requires store.Valid() && restaurant.Valid()
    modifies store`rows, restaurant`revision, restaurant`uncommittedEvents, restaurant`state,
             set e | e in restaurant.uncommittedEvents
    ensures store.Valid() && restaurant.Valid()
    ensures var res := Fold(old(restaurant.Value()), IssuedAll(Hires(names), userId, old(restaurant.revision), now));
      && (res.Err? ==> err == Some(ApplyFailed(res.error)) && store.rows == old(store.rows))
      && (res.Ok? ==> Committed(res.value, store.users, old(store.rows), store.rows,
                                restaurant.revision, restaurant.state, restaurant.uncommittedEvents, err))
  {
    var failed := ApplyEach(restaurant, Hires(names), userId, now);
    if failed.Some? {
      return Some(ApplyFailed(failed.value));
    }
    err := Commit(store, restaurant);
  }

  /** Hiring always succeeds on a restaurant: the revision advances once per name, the employees become the
      old ones and the names, and nothing else changes. */
  lemma {:induction false} HiresFold(a: AggregateValue, names: seq<string>, userId: int, now: Time)
    requires a.state.RestaurantState?
    ensures var r := Fold(a, IssuedAll(Hires(names), userId, a.revision, now));
      && r.Ok? && r.value.id == a.id && r.value.revision == a.revision + |names| && r.value.state.RestaurantState?
      && r.value.state == a.state.(employees := r.value.state.employees)
      && forall n :: n in r.value.state.employees <==> n in a.state.employees || n in names
    decreases |names|
  {
    if names != [] {
      var es := IssuedAll(Hires(names), userId, a.revision, now);
      var rest := IssuedAll(Hires(names[1..]), userId, a.revision + 1, now);
      IssuedTail(Hires(names), userId, a.revision, now);
      assert Hires(names)[1..] == Hires(names[1..]);
      assert es[1..] == rest;
      var t := Transition(a, es[0]);
      assert es[0] == Issued(OfRestaurant(R.EmployeeHired(names[0])), userId, a.revision + 1, now);
      assert t.error.None? && t.agg.revision == a.revision + 1 && t.agg.id == a.id;
      FoldFirst(a, es);
      assert Fold(a, es) == Fold(t.agg, rest);
      HiresFold(t.agg, names[1..], userId, now);
      assert names == [names[0]] + names[1..];
    } else {
      assert IssuedAll(Hires(names), userId, a.revision, now) == [];
    }
  }

  /** `fire_employee`: `EmployeeFired` at the next revision, then saved, when the employee works there;
      otherwise the `ValueError`, with nothing applied. */
  method FireEmployee(store: EventStore, restaurant: Aggregate, userId: int, employee: string, now: Time)
    returns (err: Option<CommandError>)
    requires store.Valid() && restaurant.Valid() && restaurant.state.RestaurantState?
    modifies store`rows, restaurant`revision, restaurant`uncommittedEvents, restaurant`state,
             set e | e in restaurant.uncommittedEvents
    ensures store.Valid() && restaurant.Valid()
    ensures employee !in old(restaurant.state.employees) ==>
      && err == Some(NotEmployed(employee)) && store.rows == old(store.rows)
      && restaurant.revision == old(restaurant.revision) && restaurant.state == old(restaurant.state)
      && restaurant.uncommittedEvents == old(restaurant.uncommittedEvents)
      && Snapshots(restaurant.uncommittedEvents) == old(Snapshots(restaurant.uncommittedEvents))
    ensures employee in old(restaurant.state.employees) ==>
      Committed(Fired(old(restaurant.Value()), userId, employee, now), store.users, old(store.rows), store.rows,
                restaurant.revision, restaurant.state, restaurant.uncommittedEvents, err)
  {
    if employee !in restaurant.state.employees {
      return Some(NotEmployed(employee));
    }
    // cannot fail: the revision is the next one and a restaurant handles `EmployeeFired` (see `Fired`)
    var failed := ApplyNext(restaurant, OfRestaurant(R.EmployeeFired(employee)), userId, now);
    err := Commit(store, restaurant);
  }

  /** The restaurant after `EmployeeFired`: one revision on, the employee gone when the list held no duplicates,
      every other employee kept, and nothing else changed. */
  function Fired(a: AggregateValue, userId: int, employee: string, now: Time): (v: AggregateValue)
    requires a.state.RestaurantState?
    ensures v.id == a.id && v.revision == a.revision + 1
    ensures v.uncommitted == a.uncommitted + [Recorded(a.id, OfRestaurant(R.EmployeeFired(employee)), userId, a.revision + 1, now)]
    ensures v.state.RestaurantState? && v.state == a.state.(employees := v.state.employees)
    ensures Consistent(a.state) ==> employee !in v.state.employees && Consistent(v.state)
    ensures forall n | n != employee :: n in v.state.employees <==> n in a.state.employees
  {
    Transition(a, Issued(OfRestaurant(R.EmployeeFired(employee)), userId, a.revision + 1, now)).agg
  }

  /** The ids the menu events carry: `item.id` for each menu item object. */
  function Refs(items: seq<Aggregate>): (refs: seq<R.ItemRef>)
    ensures |refs| == |items| && forall i | 0 <= i < |items| :: refs[i] == R.ItemId(items[i].id)
  {
    seq(|items|, i requires 0 <= i < |items| => R.ItemId(items[i].id))
  }

  /** The payloads of `add_items_to_menu`: one `MenuItemAdded` per item. */
  function Additions(items: seq<Aggregate>): (ps: seq<Payload>)
    ensures |ps| == |items| && forall i | 0 <= i < |items| :: ps[i] == OfRestaurant(R.MenuItemAdded(R.ItemId(items[i].id)))
  {
    seq(|items|, i requires 0 <= i < |items| => OfRestaurant(R.MenuItemAdded(R.ItemId(items[i].id))))
  }

  /** `add_items_to_menu`: the loop of `AddEach`, then saved; when an `apply` fails nothing is saved. */
  method AddItemsToMenu(store: EventStore, restaurant: Aggregate, userId: int, items: seq<Aggregate>, now: Time)
    returns (err: Option<CommandError>)
    requires store.Valid() && restaurant.Valid()
    modifies store`rows, restaurant`revision, restaurant`uncommittedEvents, restaurant`state, restaurant`menuItems,
             set e | e in restaurant.uncommittedEvents
    ensures store.Valid() && restaurant.Valid()
    ensures var res := Fold(old(restaurant.Value()), IssuedAll(Additions(items), userId, old(restaurant.revision), now));
      && (res.Err? ==> err == Some(ApplyFailed(res.error)) && store.rows == old(store.rows))
      && (res.Ok? ==> && restaurant.menuItems == old(restaurant.menuItems) + items
                      && Committed(res.value, store.users, old(store.rows), store.rows,
                                   restaurant.revision, restaurant.state, restaurant.uncommittedEvents, err))
  {
    var failed := AddEach(restaurant, items, userId, now);
    if failed.Some? {
      return Some(ApplyFailed(failed.value));
    }
    err := Commit(store, restaurant);
  }

  /** The loop of `add_items_to_menu`: for each item, `MenuItemAdded` at the next revision, then the item
      appended to `menu_items`; the first failing `apply` ends the loop. */
  method AddEach(restaurant: Aggregate, items: seq<Aggregate>, userId: int, now: Time) returns (err: Option<ApplyError>)
    requires restaurant.Valid()
    modifies restaurant`revision, restaurant`uncommittedEvents, restaurant`state, restaurant`menuItems
    ensures restaurant.Valid()
    ensures var res := Fold(old(restaurant.Value()), IssuedAll(Additions(items), userId, old(restaurant.revision), now));
      && (res.Err? ==> err == Some(res.error))
      && (res.Ok? ==> err.None? && restaurant.Value() == res.value && restaurant.menuItems == old(restaurant.menuItems) + items)
    ensures forall e | e in restaurant.uncommittedEvents :: e in old(restaurant.uncommittedEvents) || fresh(e)
  {
    ghost var a, es := restaurant.Value(), IssuedAll(Additions(items), userId, restaurant.revision, now);
    var i := 0;
    while i < |items|
      invariant 0 <= i <= |items| && restaurant.Valid()
      invariant restaurant.revision == a.revision + i
      invariant Fold(a, es) == Fold(restaurant.Value(), es[i..])
      invariant restaurant.menuItems == old(restaurant.menuItems) + items[..i]
      invariant forall e | e in restaurant.uncommittedEvents :: e in old(restaurant.uncommittedEvents) || fresh(e)
    {
      ghost var v := restaurant.Value();
      err := AddNext(restaurant, items[i], userId, now);
      ghost var rest := es[i..];
      assert rest[0] == Issued(OfRestaurant(R.MenuItemAdded(R.ItemId(items[i].id))), userId, v.revision + 1, now);
      assert rest[1..] == es[i + 1..];
      FoldFirst(v, rest);
      if err.Some? {
        return;
      }
      TakeSnoc(items, i);
      i := i + 1;
    }
    assert items[..i] == items;
    err := None;
  }

  /** One turn of the loop of `add_items_to_menu`: `MenuItemAdded` at the next revision, then, when it
      applied, the item appended to `menu_items`. */
  method AddNext(restaurant: Aggregate, item: Aggregate, userId: int, now: Time) returns (err: Option<ApplyError>)
    requires restaurant.Valid()
    modifies restaurant`revision, restaurant`uncommittedEvents, restaurant`state, restaurant`menuItems
    ensures restaurant.Valid()
    ensures var t := Transition(old(restaurant.Value()),
                                Issued(OfRestaurant(R.MenuItemAdded(R.ItemId(item.id))), userId, old(restaurant.revision) + 1, now));
      err == t.error && restaurant.Value() == t.agg
    ensures restaurant.menuItems == old(restaurant.menuItems) + (if err.None? then [item] else [])
    ensures forall e | e in restaurant.uncommittedEvents :: e in old(restaurant.uncommittedEvents) || fresh(e)
  {
    err := ApplyNext(restaurant, OfRestaurant(R.MenuItemAdded(R.ItemId(item.id))), userId, now);
    if err.None? {
      ghost var applied := restaurant.Value();
      restaurant.menuItems := restaurant.menuItems + [item];
      assert restaurant.Value() == applied;
    }
  }

  /** Adding always succeeds on a restaurant: the revision advances once per item, the menu item ids become
      the old ones and the items' ids, and nothing else changes. */
  lemma {:induction false} AdditionsFold(a: AggregateValue, items: seq<Aggregate>, userId: int, now: Time)
    requires a.state.RestaurantState?
    ensures var r := Fold(a, IssuedAll(Additions(items), userId, a.revision, now));
      && r.Ok? && r.value.id == a.id && r.value.revision == a.revision + |items| && r.value.state.RestaurantState?
      && r.value.state == a.state.(menuItemIds := r.value.state.menuItemIds)
      && forall m :: m in r.value.state.menuItemIds <==> m in a.state.menuItemIds || m in Refs(items)
    decreases |items|
  {
    if items != [] {
      var es := IssuedAll(Additions(items), userId, a.revision, now);
      var rest := IssuedAll(Additions(items[1..]), userId, a.revision + 1, now);
      IssuedTail(Additions(items), userId, a.revision, now);
      assert Additions(items)[1..] == Additions(items[1..]);
      assert es[1..] == rest;
      var t := Transition(a, es[0]);
      assert es[0] == Issued(OfRestaurant(R.MenuItemAdded(R.ItemId(items[0].id))), userId, a.revision + 1, now);
      assert t.error.None? && t.agg.revision == a.revision + 1 && t.agg.id == a.id;
      FoldFirst(a, es);
      assert Fold(a, es) == Fold(t.agg, rest);
      AdditionsFold(t.agg, items[1..], userId, now);
      assert Refs(items) == [R.ItemId(items[0].id)] + Refs(items[1..]);
    } else {
      assert IssuedAll(Additions(items), userId, a.revision, now) == [];
    }
  }

  /** `remove_items_from_menu`'s loop on values: for each item, `MenuItemRemoved` at the next revision, then
      `menu_items.remove(item)`, which raises when the item object is not on the list. */
  function Removal(a: AggregateValue, menu: seq<Aggregate>, items: seq<Aggregate>, userId: int, now: Time)
    : Result<(AggregateValue, seq<Aggregate>), CommandError>
    decreases |items|
  {
    if items == [] then Ok((a, menu))
    else
      var t := Transition(a, Issued(OfRestaurant(R.MenuItemRemoved(R.ItemId(items[0].id))), userId, a.revision + 1, now));
      if t.error.Some? then Err(ApplyFailed(t.error.value))
      else if items[0] !in menu then Err(NotOnMenu(items[0].id))
      else Removal(t.agg, RemoveFirst(menu, items[0]), items[1..], userId, now)
  }

  lemma RemovalFirst(a: AggregateValue, menu: seq<Aggregate>, items: seq<Aggregate>, userId: int, now: Time)
    requires items != []
    ensures var t := Transition(a, Issued(OfRestaurant(R.MenuItemRemoved(R.ItemId(items[0].id))), userId, a.revision + 1, now));
      Removal(a, menu, items, userId, now)
        == if t.error.Some? then Err(ApplyFailed(t.error.value))
           else if items[0] !in menu then Err(NotOnMenu(items[0].id))
           else Removal(t.agg, RemoveFirst(menu, items[0]), items[1..], userId, now)
  { }

  /** `remove_items_from_menu`: the loop of `RemoveEach`, then saved; on a failure nothing is saved. */
  method RemoveItemsFromMenu(store: EventStore, restaurant: Aggregate, userId: int, items: seq<Aggregate>, now: Time)
    returns (err: Option<CommandError>)
    requires store.Valid() && restaurant.Valid()
    modifies store`rows, restaurant`revision, restaurant`uncommittedEvents, restaurant`state, restaurant`menuItems,
             set e | e in restaurant.uncommittedEvents
    ensures store.Valid() && restaurant.Valid()
    ensures var res := Removal(old(restaurant.Value()), old(restaurant.menuItems), items, userId, now);
      && (res.Err? ==> err == Some(res.error) && store.rows == old(store.rows))
      && (res.Ok? ==> && restaurant.menuItems == res.value.1
                      && Committed(res.value.0, store.users, old(store.rows), store.rows,
                                   restaurant.revision, restaurant.state, restaurant.uncommittedEvents, err))
  {
    err := RemoveEach(restaurant, items, userId, now);
    if err.Some? {
      return;
    }
    err := Commit(store, restaurant);
  }

  /** The loop of `remove_items_from_menu`, as `Removal` states it. */
  method RemoveEach(restaurant: Aggregate, items: seq<Aggregate>, userId: int, now: Time) returns (err: Option<CommandError>)
    requires restaurant.Valid()
    modifies restaurant`revision, restaurant`uncommittedEvents, restaurant`state, restaurant`menuItems
    ensures restaurant.Valid()
    ensures var res := Removal(old(restaurant.Value()), old(restaurant.menuItems), items, userId, now);
      && (res.Err? ==> err == Some(res.error))
      && (res.Ok? ==> err.None? && restaurant.Value() == res.value.0 && restaurant.menuItems == res.value.1)
    ensures forall e | e in restaurant.uncommittedEvents :: e in old(restaurant.uncommittedEvents) || fresh(e)
  {
    ghost var spec := Removal(restaurant.Value(), restaurant.menuItems, items, userId, now);
    var i := 0;
    while i < |items|
      invariant 0 <= i <= |items| && restaurant.Valid()
      invariant spec == Removal(restaurant.Value(), restaurant.menuItems, items[i..], userId, now)
      invariant forall e | e in restaurant.uncommittedEvents :: e in old(restaurant.uncommittedEvents) || fresh(e)
    {
      assert items[i..] == [items[i]] + items[i + 1..];
      err := RemoveNext(restaurant, items[i], items[i + 1..], userId, now);
      if err.Some? {
        assert spec == Err(err.value);
        return;
      }
      i := i + 1;
    }
    assert items[i..] == [];
    err := None;
  }

  /** One turn of the loop of `remove_items_from_menu`: `MenuItemRemoved` at the next revision, then the
      first occurrence of the item taken out of `menu_items`, which fails when it is not there; stated as
      one step of `Removal` over the item and the `rest` still to remove. */
  method RemoveNext(restaurant: Aggregate, item: Aggregate, ghost rest: seq<Aggregate>, userId: int, now: Time)
    returns (err: Option<CommandError>)
    requires restaurant.Valid()
    modifies restaurant`revision, restaurant`uncommittedEvents, restaurant`state, restaurant`menuItems
    ensures restaurant.Valid()
    ensures Removal(old(restaurant.Value()), old(restaurant.menuItems), [item] + rest, userId, now)
         == if err.Some? then Err(err.value) else Removal(restaurant.Value(), restaurant.menuItems, rest, userId, now)
    ensures forall e | e in restaurant.uncommittedEvents :: e in old(restaurant.uncommittedEvents) || fresh(e)
  {
    RemovalFirst(restaurant.Value(), restaurant.menuItems, [item] + rest, userId, now);
    assert ([item] + rest)[0] == item && ([item] + rest)[1..] == rest;
    var failed := ApplyNext(restaurant, OfRestaurant(R.MenuItemRemoved(R.ItemId(item.id))), userId, now);
    if failed.Some? {
      return Some(ApplyFailed(failed.value));
    }
    if item !in restaurant.menuItems {
      return Some(NotOnMenu(item.id));
    }
    ghost var applied := restaurant.Value();
    restaurant.menuItems := RemoveFirst(restaurant.menuItems, item);
    assert restaurant.Value() == applied;
    err := None;
  }

  /** On a restaurant, removal fails only for an item no longer on the list. Otherwise the revision advances
      once per item, each item's id is off the menu, the item objects are taken off the list one for one,
      and the other ids and attributes stay. */
  lemma {:induction false} RemovalOnRestaurant(a: AggregateValue, menu: seq<Aggregate>, items: seq<Aggregate>,
                                               userId: int, now: Time)
    requires a.state.RestaurantState? && Consistent(a.state)
    ensures var res := Removal(a, menu, items, userId, now);
      && (res.Err? ==> res.error.NotOnMenu?)
      && (res.Ok? ==> var (v, m) := res.value;
            && v.id == a.id && v.revision == a.revision + |items|
            && v.state.RestaurantState? && Consistent(v.state)
            && v.state == a.state.(menuItemIds := v.state.menuItemIds)
            && (forall r | r in Refs(items) :: r !in v.state.menuItemIds)
            && (forall r | r !in Refs(items) :: r in v.state.menuItemIds <==> r in a.state.menuItemIds))
    decreases |items|
  {
    if items != [] {
      var x := items[0];
      var t := Transition(a, Issued(OfRestaurant(R.MenuItemRemoved(R.ItemId(x.id))), userId, a.revision + 1, now));
      RemovedOne(a, x.id, userId, now);
      if x in menu {
        var menu' := RemoveFirst(menu, x);
        RemovalOnRestaurant(t.agg, menu', items[1..], userId, now);
        var res := Removal(a, menu, items, userId, now);
        assert res == Removal(t.agg, menu', items[1..], userId, now);
        if res.Ok? {
          var ids, mid, before := res.value.0.state.menuItemIds, t.agg.state.menuItemIds, a.state.menuItemIds;
          RefsCons(items);
          forall r | r in Refs(items) ensures r !in ids {
            if r !in Refs(items[1..]) {
              assert r == R.ItemId(x.id) && r !in mid;
            }
          }
          forall r | r !in Refs(items) ensures r in ids <==> r in before {
            assert r != R.ItemId(x.id) && r !in Refs(items[1..]);
          }
        }
      }
    }
  }

  lemma RefsCons(items: seq<Aggregate>)
    requires items != []
    ensures forall r :: r in Refs(items) <==> r == R.ItemId(items[0].id) || r in Refs(items[1..])
  {
    assert Refs(items) == [R.ItemId(items[0].id)] + Refs(items[1..]);
  }

  /** A removal that succeeds takes the items off the list one for one: what is left and what was taken
      together are the list before. */
  lemma {:induction false} RemovalTakesItems(a: AggregateValue, menu: seq<Aggregate>, items: seq<Aggregate>,
                                             userId: int, now: Time)
    requires Removal(a, menu, items, userId, now).Ok?
    ensures multiset(menu) == multiset(Removal(a, menu, items, userId, now).value.1) + multiset(items)
    decreases |items|
  {
    if items != [] {
      var x := items[0];
      var t := Transition(a, Issued(OfRestaurant(R.MenuItemRemoved(R.ItemId(x.id))), userId, a.revision + 1, now));
      RemovalTakesItems(t.agg, RemoveFirst(menu, x), items[1..], userId, now);
      RemoveFirstCount(menu, x);
      assert items == [x] + items[1..];
    }
  }

  /** One `MenuItemRemoved` on a restaurant applies, takes the id off and keeps everything else. */
  lemma RemovedOne(a: AggregateValue, item: Uuid, userId: int, now: Time)
    requires a.state.RestaurantState? && Consistent(a.state)
    ensures var t := Transition(a, Issued(OfRestaurant(R.MenuItemRemoved(R.ItemId(item))), userId, a.revision + 1, now));
      && t.error.None? && t.agg.id == a.id && t.agg.revision == a.revision + 1
      && t.agg.state.RestaurantState? && Consistent(t.agg.state)
      && t.agg.state == a.state.(menuItemIds := t.agg.state.menuItemIds)
      && R.ItemId(item) !in t.agg.state.menuItemIds
      && (forall r | r != R.ItemId(item) :: r in t.agg.state.menuItemIds <==> r in a.state.menuItemIds)
  {
    var e := Issued(OfRestaurant(R.MenuItemRemoved(R.ItemId(item))), userId, a.revision + 1, now);
    TransitionState(a, e);
    assert Handle(a.state, e.payload).value == HandleRestaurant(a.state, R.MenuItemRemoved(R.ItemId(item)));
  }

  /** `_restaurant_exists`: some stored event belongs to the stream. */
  function RestaurantExists(store: EventStore, id: Uuid): (b: bool)
    reads store
    ensures b <==> exists i | 0 <= i < |store.rows| :: store.rows[i].eventStreamId == Some(id)
  {
    store.CountEventsById(id) > 0
  }

  // ----- MenuItemService -----

  /** `_set_price_pure`: `PriceChanged` by the difference between the new price and the current one. */
  method SetPricePure(menuItem: Aggregate, userId: int, newPriceInCents: int, now: Time)
    requires menuItem.Valid() && menuItem.state.MenuItemState?
    modifies menuItem`revision, menuItem`uncommittedEvents, menuItem`state
    ensures menuItem.Valid()
    ensures menuItem.Value() == Repriced(old(menuItem.Value()), userId, newPriceInCents, now)
    ensures forall e | e in menuItem.uncommittedEvents :: e in old(menuItem.uncommittedEvents) || fresh(e)
  {
    var delta := newPriceInCents - menuItem.state.priceInCents;
    // cannot fail: the revision is the next one and a menu item handles `PriceChanged` (see `Repriced`)
    var failed := ApplyNext(menuItem, OfMenuItem(M.PriceChanged(delta)), userId, now);
  }

  /** The menu item after `_set_price_pure`: one revision on, the new price, name and category kept. */
  function Repriced(a: AggregateValue, userId: int, newPriceInCents: int, now: Time): (v: AggregateValue)
    requires a.state.MenuItemState?
    ensures v.id == a.id && v.revision == a.revision + 1
    ensures v.state == a.state.(priceInCents := newPriceInCents)
    ensures v.uncommitted == a.uncommitted +
      [Recorded(a.id, OfMenuItem(M.PriceChanged(newPriceInCents - a.state.priceInCents)), userId, a.revision + 1, now)]
  {
    var p := OfMenuItem(M.PriceChanged(newPriceInCents - a.state.priceInCents));
    Transition(a, Issued(p, userId, a.revision + 1, now)).agg
  }

  /** `set_price`: `_set_price_pure`, then saved. */
  method SetPrice(store: EventStore, menuItem: Aggregate, userId: int, newPriceInCents: int, now: Time)
    returns (err: Option<CommandError>)
    requires store.Valid() && menuItem.Valid() && menuItem.state.MenuItemState?
    modifies store`rows, menuItem`revision, menuItem`uncommittedEvents, menuItem`state,
             set e | e in menuItem.uncommittedEvents
    ensures store.Valid() && menuItem.Valid()
    ensures Committed(Repriced(old(menuItem.Value()), userId, newPriceInCents, now), store.users, old(store.rows),
                      store.rows, menuItem.revision, menuItem.state, menuItem.uncommittedEvents, err)
  {
    SetPricePure(menuItem, userId, newPriceInCents, now);
    err := Commit(store, menuItem);
  }

  /** `create_menu_item`: a new menu item, `MenuItemCreated` at revision 1, the price set at revision 2, then
      saved. `generated` stands for the `uuid4()` of `MenuItem()`. */
  method CreateMenuItem(store: EventStore, userId: int, name: string, category: string, priceInCents: int,
                        generated: Uuid, now: Time) returns (menuItem: Aggregate, err: Option<CommandError>)
    requires store.Valid()
    modifies store`rows
    ensures store.Valid() && fresh(menuItem) && menuItem.Valid() && menuItem.id == generated
    ensures Committed(Created(generated, userId, name, category, priceInCents, now), store.users, old(store.rows),
                      store.rows, menuItem.revision, menuItem.state, menuItem.uncommittedEvents, err)
  {
    menuItem := NewCreated(userId, name, category, priceInCents, generated, now);
    err := Commit(store, menuItem);
  }

  /** The unsaved half of `create_menu_item`: `MenuItem()` with `MenuItemCreated` applied and the price set. */
  method NewCreated(userId: int, name: string, category: string, priceInCents: int, generated: Uuid, now: Time)
    returns (menuItem: Aggregate)
    ensures fresh(menuItem) && menuItem.Valid() && menuItem.id == generated
    ensures menuItem.Value() == Created(generated, userId, name, category, priceInCents, now)
    ensures forall e | e in menuItem.uncommittedEvents :: fresh(e)
  {
    menuItem := new Aggregate.MenuItem(None, generated);
    // cannot fail: a new menu item is at revision 0 and handles `MenuItemCreated` (see `Created`)
    var failed := ApplyNext(menuItem, OfMenuItem(M.MenuItemCreated(name, category)), userId, now);
    SetPricePure(menuItem, userId, priceInCents, now);
  }

  /** The menu item `create_menu_item` builds: revision 2, the given name, category and price, and both events
      recorded. */
  function Created(id: Uuid, userId: int, name: string, category: string, priceInCents: int, now: Time)
    : (v: AggregateValue)
    ensures v.id == id && v.revision == 2
    ensures v.state == MenuItemState(name, category, priceInCents)
    ensures v.uncommitted == [Recorded(id, OfMenuItem(M.MenuItemCreated(name, category)), userId, 1, now),
                              Recorded(id, OfMenuItem(M.PriceChanged(priceInCents)), userId, 2, now)]
  {
    var named := Transition(Fresh(id, NewMenuItem), Issued(OfMenuItem(M.MenuItemCreated(name, category)), userId, 1, now)).agg;
    Repriced(named, userId, priceInCents, now)
  }
}
