/**
 * The two menu item events: payload fields, type tags and construction from a
 * stored payload. Neither overrides the encode/clean hooks of the base event.
 */
module MenuItemEvents {
  import opened Results
  import opened Records

  datatype MenuItemEvent =
    | MenuItemCreated(name: string, category: string)
    | PriceChanged(delta: int)

  /** One value per event class. */
  datatype Kind = Created | Repriced

  function KindOf(e: MenuItemEvent): Kind
  {
    match e
    case MenuItemCreated(_, _) => Created
    case PriceChanged(_) => Repriced
  }

  /** `get_event_type` of each class. */
  function Tag(k: Kind): string
  {
    match k
    case Created => "menuitem.created"
    case Repriced => "menuitem.price.changed"
  }

  /** The attribute names each class adds to the base event, in declaration order. */
  function FieldNames(k: Kind): seq<string>
  {
    match k
    case Created => ["name", "category"]
    case Repriced => ["delta"]
  }

  /** The value of one payload attribute. */
  function Field(e: MenuItemEvent, name: string): Value
    requires name in FieldNames(KindOf(e))
  {
    match e
    case MenuItemCreated(n, c) => if name == "name" then Text(n) else Text(c)
    case PriceChanged(d) => Number(d)
  }

  /** The payload blob: exactly the class's own attributes. */
  function Fields(e: MenuItemEvent): (data: Data)
    ensures forall n :: n in data <==> n in FieldNames(KindOf(e))
    ensures forall n | n in data :: data[n] == Field(e, n)
  {
    map n | n in FieldNames(KindOf(e)) :: Field(e, n)
  }

  /** `create_from_event`, restricted to the payload: read the class's keys from the blob, in order. */
  function FromData(k: Kind, data: Data): (r: Result<MenuItemEvent, DataError>)
    ensures r.Ok? ==> KindOf(r.value) == k
    ensures (forall n | n in FieldNames(k) :: n !in data) ==> r == Err(MissingField(FieldNames(k)[0]))
  {
    match k
    case Created =>
      var name :- TextField(data, "name");
      var category :- TextField(data, "category");
      Ok(MenuItemCreated(name, category))
    case Repriced =>
      var delta :- NumberField(data, "delta");
      Ok(PriceChanged(delta))
  }

  /** The two tags are distinct. */
  lemma TagInjective(k1: Kind, k2: Kind)
    requires Tag(k1) == Tag(k2)
    ensures k1 == k2
  {
  }

  /** Reading the blob of an event gives that event back; a delta of any sign is kept. */
  lemma FromDataOfFields(e: MenuItemEvent)
    ensures FromData(KindOf(e), Fields(e)) == Ok(e)
  {
  }

  /** A blob holding exactly the class's keys is the blob of the event read from it. */
  lemma FieldsOfFromData(k: Kind, data: Data)
    requires FromData(k, data).Ok?
    requires forall n :: n in data <==> n in FieldNames(k)
    ensures Fields(FromData(k, data).value) == data
  {
  }
}
