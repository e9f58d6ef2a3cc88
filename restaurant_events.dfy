/**
 * The five restaurant events: their payload fields, type tags, construction
 * from a stored payload, and the UUID encode/clean hooks of MenuItemAdded
 * (inherited by MenuItemRemoved).
 */
module RestaurantEvents {
  import opened Results
  import opened Ids
  import opened Records

  /**
   * The two forms the `menu_item_id` attribute takes: a UUID in memory, and its
   * text while the event is being saved or has just been read back.
   */
  datatype ItemRef = ItemId(id: Uuid) | ItemText(text: string)

  datatype RestaurantEvent =
    | RestaurantOpened(name: string, year: int, location: string)
    | EmployeeHired(employeeName: string)
    | EmployeeFired(employeeName: string)
    | MenuItemAdded(menuItemId: ItemRef)
    | MenuItemRemoved(menuItemId: ItemRef)

  /** One value per event class. */
  datatype Kind = Opened | Hired | Fired | ItemAdded | ItemRemoved

  function KindOf(e: RestaurantEvent): Kind
  {
    match e
    case RestaurantOpened(_, _, _) => Opened
    case EmployeeHired(_) => Hired
    case EmployeeFired(_) => Fired
    case MenuItemAdded(_) => ItemAdded
    case MenuItemRemoved(_) => ItemRemoved
  }

  /** `get_event_type` of each class. */
  function Tag(k: Kind): string
  {
    match k
    case Opened => "restaurant.opened"
    case Hired => "restaurant.employee.hired"
    case Fired => "restaurant.employee.fired"
    case ItemAdded => "restaurant.menuitem.added"
    case ItemRemoved => "restaurant.menuitem.removed"
  }

  /** The class each event class is declared to derive from, when it is not the event base class. */
  function Parent(k: Kind): Option<Kind>
  {
    if k == ItemRemoved then Some(ItemAdded) else None
  }

  /** The attribute names each class adds to the base event, in declaration order. */
  function FieldNames(k: Kind): seq<string>
  {
    match k
    case Opened => ["name", "year", "location"]
    case Hired => ["employee_name"]
    case Fired => ["employee_name"]
    case ItemAdded => ["menu_item_id"]
    case ItemRemoved => ["menu_item_id"]
  }

  /** The stored value of a menu item id: a UUID is written in its text form. */
  function RefValue(r: ItemRef): Value
  {
    match r
    case ItemId(u) => Text(ToText(u))
    case ItemText(t) => Text(t)
  }

  /** The value of one payload attribute. */
  function Field(e: RestaurantEvent, name: string): Value
    requires name in FieldNames(KindOf(e))
  {
    match e
    case RestaurantOpened(n, y, l) => if name == "name" then Text(n) else if name == "year" then Number(y) else Text(l)
    case EmployeeHired(n) => Text(n)
    case EmployeeFired(n) => Text(n)
    case MenuItemAdded(r) => RefValue(r)
    case MenuItemRemoved(r) => RefValue(r)
  }

  /** The payload blob: exactly the class's own attributes. */
  function Fields(e: RestaurantEvent): (data: Data)
    ensures forall n :: n in data <==> n in FieldNames(KindOf(e))
    ensures forall n | n in data :: data[n] == Field(e, n)
  {
    map n | n in FieldNames(KindOf(e)) :: Field(e, n)
  }

  /** `create_from_event`, restricted to the payload: read the class's keys from the blob, in order. */
  function FromData(k: Kind, data: Data): (r: Result<RestaurantEvent, DataError>)
    ensures r.Ok? ==> KindOf(r.value) == k
    ensures (forall n | n in FieldNames(k) :: n !in data) ==> r == Err(MissingField(FieldNames(k)[0]))
  {
    match k
    case Opened =>
      var name :- TextField(data, "name");
      var year :- NumberField(data, "year");
      var location :- TextField(data, "location");
      Ok(RestaurantOpened(name, year, location))
    case Hired =>
      var name :- TextField(data, "employee_name");
      Ok(EmployeeHired(name))
    case Fired =>
      var name :- TextField(data, "employee_name");
      Ok(EmployeeFired(name))
    case ItemAdded =>
      var id :- TextField(data, "menu_item_id");
      Ok(MenuItemAdded(ItemText(id)))
    case ItemRemoved =>
      var id :- TextField(data, "menu_item_id");
      Ok(MenuItemRemoved(ItemText(id)))
  }

  /** Why `uuid.UUID(value)` fails: it was given a UUID rather than text, or text that is no UUID. */
  datatype CleanError = NotText | MalformedUuid(text: string)

  /** `str(menu_item_id)`: a UUID becomes its text; text stays as it is. */
  function EncodeRef(r: ItemRef): (s: ItemRef)
    ensures s.ItemText?
    ensures r.ItemText? ==> s == r
    ensures r.ItemId? ==> FromText(s.text) == Some(r.id)
  {
    match r
    case ItemId(u) => TextRoundTrip(u); ItemText(ToText(u))
    case ItemText(_) => r
  }

  /** `uuid.UUID(menu_item_id)`. */
  function CleanRef(r: ItemRef): (s: Result<ItemRef, CleanError>)
    ensures s.Ok? <==> r.ItemText? && FromText(r.text).Some?
    ensures s.Ok? ==> s.value == ItemId(FromText(r.text).value)
  {
    match r
    case ItemId(_) => Err(NotText)
    case ItemText(t) =>
      match FromText(t)
      case Some(u) => Ok(ItemId(u))
      case None => Err(MalformedUuid(t))
  }

  /** `encode_data_before_save`: only the menu item classes override the base no-op. */
  function Encode(e: RestaurantEvent): (r: RestaurantEvent)
    ensures KindOf(r) == KindOf(e)
    ensures !(e.MenuItemAdded? || e.MenuItemRemoved?) ==> r == e
    ensures (e.MenuItemAdded? || e.MenuItemRemoved?) ==> r.menuItemId == EncodeRef(e.menuItemId)
  {
    match e
    case MenuItemAdded(r) => MenuItemAdded(EncodeRef(r))
    case MenuItemRemoved(r) => MenuItemRemoved(EncodeRef(r))
    case _ => e
  }

  /** `clean_data_post_save`: only the menu item classes override the base no-op. */
  function Clean(e: RestaurantEvent): (r: Result<RestaurantEvent, CleanError>)
    ensures r.Ok? ==> KindOf(r.value) == KindOf(e)
    ensures !(e.MenuItemAdded? || e.MenuItemRemoved?) ==> r == Ok(e)
    ensures (e.MenuItemAdded? || e.MenuItemRemoved?) ==>
              (r.Ok? <==> CleanRef(e.menuItemId).Ok?) &&
              (r.Ok? ==> r.value.menuItemId == CleanRef(e.menuItemId).value)
  {
    match e
    case MenuItemAdded(r) => var id :- CleanRef(r); Ok(MenuItemAdded(id))
    case MenuItemRemoved(r) => var id :- CleanRef(r); Ok(MenuItemRemoved(id))
    case _ => Ok(e)
  }

  /** The in-memory form: a menu item id is a UUID. */
  predicate Hydrated(e: RestaurantEvent)
  {
    (e.MenuItemAdded? || e.MenuItemRemoved?) ==> e.menuItemId.ItemId?
  }

  /** The stored form: a menu item id is text. */
  predicate Encoded(e: RestaurantEvent)
  {
    (e.MenuItemAdded? || e.MenuItemRemoved?) ==> e.menuItemId.ItemText?
  }

  /** The five tags are pairwise distinct. */
  lemma TagInjective(k1: Kind, k2: Kind)
    requires Tag(k1) == Tag(k2)
    ensures k1 == k2
  {
  }

  /** Cleaning after encoding restores the original UUID. */
  lemma CleanUndoesEncode(e: RestaurantEvent)
    requires Hydrated(e)
    ensures Clean(Encode(e)) == Ok(e)
  {
    if e.MenuItemAdded? || e.MenuItemRemoved? {
      TextRoundTrip(e.menuItemId.id);
    }
  }

  /** Reading a blob written from an event in its stored form gives that event back. */
  lemma FromDataOfFields(e: RestaurantEvent)
    requires Encoded(e)
    ensures FromData(KindOf(e), Fields(e)) == Ok(e)
  {
  }

  /** A blob holding exactly the class's keys is the blob of the event read from it. */
  lemma FieldsOfFromData(k: Kind, data: Data)
    requires FromData(k, data).Ok?
    requires forall n :: n in data <==> n in FieldNames(k)
    ensures Fields(FromData(k, data).value) == data
  {
  }

  /** Encoding after a successful clean gives the stored text back: only the canonical form is accepted. */
  lemma EncodeUndoesClean(e: RestaurantEvent)
    requires Clean(e).Ok?
    ensures Encode(Clean(e).value) == e
  {
    if e.MenuItemAdded? || e.MenuItemRemoved? {
      TextCanonical(e.menuItemId.text, FromText(e.menuItemId.text).value);
    }
  }
}
