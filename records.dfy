/**
 * The persisted shapes: the stored envelope of one event, the JSON payload blob
 * it carries, and the user directory that envelopes refer to.
 */
module Records {
  import opened Results
  import opened Ids

  /** A business timestamp, abstracted to an ordered value. */
  type Time = int

  /** A JSON value of a payload blob as the events use it: a string or an integer. */
  datatype Value = Text(text: string) | Number(number: int)

  /** The `data` blob of an envelope: attribute name to value. */
  type Data = map<string, Value>

  /** Reading `data[key]` fails when the key is absent (a KeyError), or holds a value of the other kind. */
  datatype DataError = MissingField(key: string) | WrongFieldType(key: string)

  function TextField(data: Data, key: string): (r: Result<string, DataError>)
    ensures r.Ok? <==> key in data && data[key].Text?
    ensures key !in data ==> r == Err(MissingField(key))
    ensures r.Ok? ==> Text(r.value) == data[key]
  {
    if key !in data then Err(MissingField(key))
    else if data[key].Text? then Ok(data[key].text)
    else Err(WrongFieldType(key))
  }

  function NumberField(data: Data, key: string): (r: Result<int, DataError>)
    ensures r.Ok? <==> key in data && data[key].Number?
    ensures key !in data ==> r == Err(MissingField(key))
    ensures r.Ok? ==> Number(r.value) == data[key]
  {
    if key !in data then Err(MissingField(key))
    else if data[key].Number? then Ok(data[key].number)
    else Err(WrongFieldType(key))
  }

  /**
   * One stored event. A stream id of None stands for the NULL that the
   * translator copies from an event that was never bound to an entity; the
   * store refuses to insert it.
   */
  datatype Envelope = Envelope(
    eventStreamId: Option<Uuid>,
    revision: int,
    eventType: string,
    time: Time,
    userId: int,
    data: Data)

  /** A user record; the directory maps user ids to users. */
  datatype User = User(firstName: string, lastName: string, email: string, active: bool)

  type Directory = map<int, User>

  /** The `type` column holds at most 125 characters. */
  const TypeMaxLength := 125
}
