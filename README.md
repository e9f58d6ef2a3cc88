# Restaurant event sourcing, modelled in Dafny

This project models the core of a small event-sourcing engine for restaurants
and their menu items. The state of an entity is never stored. It is rebuilt by
replaying that entity's stream of typed events in revision order.

- **Entities.** A `Restaurant` or a `MenuItem` accepts an event only at its
  next revision. On first observation it binds its own id onto the event and
  keeps the event as uncommitted. It then dispatches the event to its handler
  table.
- **Events.** There are seven event classes, each with a fixed type tag. The
  base constructor validates its fields. The two menu item events store their
  UUID as text and parse it back.
- **Translator.** It maps domain events to rows of the events table and back.
  Within one batch it looks each user up once.
- **Event store.** `save` inserts the translations of the uncommitted events
  and then forgets them. The queries select by stream id and date and order by
  revision. The table never holds two rows with the same
  (stream id, revision).
- **Entity services.** They load one entity or several by replaying stored
  events. Their commands build events at `revision + 1` (for a price, with
  the delta `new - current`), apply them and save.

The modules follow the program's structure.

| module | file | models |
|---|---|---|
| `Results`, `Ids`, `Records`, `Lists` | results.dfy, ids.dfy, records.dfy, lists.dfy | a Result/Option pair; the UUID text form; the row and user records and the JSON blob; the Python list operations the handlers use |
| `RestaurantEvents`, `MenuItemEvents`, `Events` | restaurant_events.dfy, menu_item_events.dfy, events.dfy | the event classes, their tags, blobs, readers and UUID hooks; the `DomainEvent` class with its base constructor and hooks |
| `Projections` | projections.dfy | the handler tables, the state machine of `apply` as the pure `Transition`, its `Fold` over a history, and the `Aggregate` class whose `Apply` is proved against `Transition` |
| `Translation` | translation.dfy | the registry, the event-to-row and row-to-event translations, and the `Translator` class with its user cache and blob loop |
| `EventStore` | event_store.dfy | the table with its unique key, the bulk insert, the ordered queries, and the `EventStore` class with `save` and the query services |
| `EntityServices` | entity_services.dfy | loading one entity, the grouped load of several, and the save-then-reload round trip |
| `Commands` | commands.dfy | the command methods of `RestaurantService` and `MenuItemService` |

The model is built in two layers. Whatever the source changes in place is a
class: `Aggregate`, `DomainEvent`, `Translator` and `EventStore`, with
`modifies` frames. Each method of those classes is proved against a pure
function: `Transition`, `Fold`, `TranslateBatch`, `FromEnvelope`,
`InsertAll`, `Query`, `LoadValue`, `LoadMultipleValues` and `Removal`. The
lemmas state what the source promises about those functions.

## Model

| member | source | states |
|---|---|---|
| `Projections.Aggregate.Restaurant` | restaurant/projections/entities.py:44-51 | a new restaurant keeps a supplied id and takes the generated one only when none is given; revision 0, nothing uncommitted, empty name, address, lists and no year |
| `Projections.Fresh` | restaurant/projections/entities.py:15-21 | a new entity: the given id at revision 0 with nothing uncommitted; the state each kind starts from is stated by `Projections.Aggregate.Restaurant` and `Projections.Aggregate.MenuItem`, whose values are `Fresh` |
| `Projections.Aggregate.MenuItem` | restaurant/projections/entities.py:90-94 | a new menu item keeps a supplied id, else the generated one; revision 0, nothing uncommitted, empty name and category, price 0 |
| `Projections.CheckRevision` | restaurant/projections/entities.py:28-34 | an event is accepted exactly when its revision is the current one plus 1; at or below the current revision is the stale error, above the next one the gap error |
| `Projections.Observe` | restaurant/projections/entities.py:36-39 | an event without a stream id gets the entity's id and the first-observation flag; an event that has one is left exactly as it is; revision, payload, user and time never change |
| `Projections.Transition` | restaurant/projections/entities.py:27-40 | a rejected event leaves the entity and the event unchanged; an accepted one advances the revision by one, is observed, and is appended to the uncommitted events exactly when it had no stream id; a class missing from the table fails after that bookkeeping with the state kept, otherwise the handler's state results |
| `Projections.Fold` | restaurant/services/entities.py:42-43 | the `for event in events: entity.apply(event)` loop on values, stopping at the first raise; what it computes is stated by `FoldShape`, `FoldSucceeds`, `FoldAppend`, `FoldPrice`, `FoldEmployees` and `FoldMenuItems`, and `EntityServices.BuildEntityForEvents` is proved against it |
| `Projections.Aggregate.Apply` | restaurant/projections/entities.py:27-40 | the method's new revision, uncommitted list, state and event are those of `Transition` on the old values; only a first-observed event object is appended; revisions in the uncommitted list stay increasing and at most the current one |
| `Projections.Aggregate.Bind` | restaurant/projections/entities.py:35-39 | the revision becomes the event's, and a first-observed event is bound, flagged and appended; nothing else changes |
| `Projections.Aggregate.Dispatch` | restaurant/projections/entities.py:40 | the state becomes the handler's for the payload's class, or the missing-key error is returned with the state kept |
| `Projections.Handle` | restaurant/projections/entities.py:53-60 | a handler exists exactly for restaurant events on a restaurant and menu item events on a menu item; handling keeps the entity's kind and the no-duplicates invariant |
| `Projections.HandleRestaurant` | restaurant/projections/entities.py:62-81 | opening overwrites name, year and address only; a hire or an addition makes the value present and changes the list's members by that value alone; a firing or removal takes the value out of a duplicate-free list and keeps every other member; no handler creates duplicates |
| `Projections.HandleMenuItem` | restaurant/projections/entities.py:102-107 | creation sets name and category only; a price change moves the price by exactly the delta and changes nothing else |
| `Projections.FirstObservations` | restaurant/projections/entities.py:36-39 | the events a fold records are bound to the entity and flagged, and are no more than the events applied |
| `Projections.FoldShape` | restaurant/projections/entities.py:27-40 | a successful fold had consecutive revisions from the start and a handler for every event; it keeps the id, ends at the start revision plus the number of events, appends exactly the first observations, keeps the kind and the invariant |
| `Projections.FoldSucceeds` | restaurant/projections/entities.py:27-40 | conversely, consecutive revisions that all have handlers always fold |
| `Projections.FoldAppend` | restaurant/projections/entities.py:27-40 | folding a concatenation is folding the first part and then the second, and a failure in the first part is the outcome |
| `Projections.FoldSnoc` | restaurant/projections/entities.py:27-40 | a fold of one more event that succeeds is one more successful `apply` after the shorter fold |
| `Projections.ReplayObservesNothing` | restaurant/projections/entities.py:36-39 | replayed events, which all carry stream ids, add nothing to the uncommitted events |
| `Projections.FoldIgnoresBinding` | restaurant/projections/entities.py:27-40 | the revision and state a fold reaches depend only on the events' revisions and payloads, not on stream ids, flags or the entity's id |
| `Projections.FoldPrice` | restaurant/projections/entities.py:106-107 | a menu item's price after a fold is its starting price plus the sum of the applied deltas |
| `Projections.FoldLastOpenedWins` | restaurant/projections/entities.py:62-65 | after a fold, name, year and address are those of the last `RestaurantOpened`, or unchanged when there was none |
| `Projections.FoldEmployees` | restaurant/projections/entities.py:67-73 | after a fold, a person is employed exactly when the last hire or firing naming them was a hire, or they were employed before and neither occurs |
| `Projections.FoldMenuItems` | restaurant/projections/entities.py:75-81 | after a fold, an id is on the menu exactly when the last addition or removal of it was an addition, or it was there before and neither occurs |
| `Projections.EmployeeStep` | restaurant/projections/entities.py:67-73 | one handled event decides employment: a hire of the person adds them, a firing removes them, any other event keeps the answer |
| `Projections.MenuStep` | restaurant/projections/entities.py:75-81 | one handled event decides menu membership in the same way |
| `Lists.AddAbsent` | restaurant/projections/entities.py:68-69 | append only when absent: the value is then present, no other member appears, a present value changes nothing, and no duplicates are created |
| `Lists.RemoveFirst` | restaurant/projections/entities.py:72-73 | removal of an absent value leaves the list unchanged |
| `Lists.RemoveFirstCount` | restaurant/services/entities.py:91 | `list.remove` of a present value takes exactly one occurrence: the multiset loses that value once |
| `Lists.RemoveFirstLength` | restaurant/services/entities.py:91 | removing a present value shortens the list by one |
| `Lists.RemoveFirstKeepsOthers` | restaurant/projections/entities.py:72-73 | removing a value keeps every other value |
| `Lists.RemoveFirstAt` | restaurant/services/entities.py:91 | `list.remove` of a value whose first occurrence is at `k` takes out exactly that occurrence and keeps the order of everything before and after it |
| `Lists.FirstOccurrence` | restaurant/services/entities.py:91 | a value present in a list has an index before which it does not occur |
| `Lists.RemoveFirstSplit` | restaurant/services/entities.py:91 | `list.remove` of a present value takes out its first occurrence and keeps the order of all the rest |
| `Lists.RemoveFirstNoDuplicates` | restaurant/projections/entities.py:72-73 | in a list without duplicates the removed value is afterwards absent and no duplicates appear |
| `Events.CheckConstruction` | restaurant/events/base.py:33-36 | construction succeeds exactly when there is a user id and a revision of at least 0; a missing user id is reported first, then the revision |
| `Events.NewEvent` | restaurant/events/base.py:24-36 | the validating constructor returns the first failing check's error, else a fresh event with no stream id, not first observed, and user id, revision, time and payload as given |
| `Events.DomainEvent.constructor` | restaurant/events/base.py:24-31 | a constructed event has no stream id, is not first observed, and stores its user id, revision, time and payload as given |
| `Events.DomainEvent.SetEventStreamId` | restaurant/events/base.py:40-42 | sets the stream id and nothing else, so setting the same id again changes nothing |
| `Events.DomainEvent.EncodeDataBeforeSave` | restaurant/events/base.py:49-50 | the payload becomes its encoded form and nothing else changes |
| `Events.DomainEvent.CleanDataPostSave` | restaurant/events/base.py:52-53 | the payload becomes its cleaned form, or on a failed parse the error is returned and the event is untouched |
| `Events.Encode` | restaurant/events/base.py:49-50 | the encode hook keeps the class, and the classes that do not override it, all menu item events included, keep their payload |
| `Events.Clean` | restaurant/events/base.py:52-53 | the clean hook keeps the class, and the classes that do not override it keep their payload |
| `Events.EncodeIdempotent` | restaurant/events/restaurant.py:85-86 | encoding twice is encoding once |
| `Events.CleanUndoesEncode` | restaurant/events/restaurant.py:85-89 | cleaning after encoding gives back any in-memory payload |
| `Events.EncodeUndoesClean` | restaurant/events/restaurant.py:85-89 | encoding after a successful clean gives back the stored payload |
| `Events.Tag` | restaurant/models.py:18 | every tag is non-empty and fits the 125-character `type` column |
| `Events.TagInjective` | restaurant/events/menu_item.py:16-17 | the seven tags are pairwise distinct, menu item tags against restaurant tags included, so a tag names one class |
| `Events.TagsDistinct` | restaurant/events/restaurant.py:104-105 | distinct classes have distinct tags |
| `Events.AllKindsComplete` | restaurant/services/translation.py:14-15 | the list of event classes the registry visits holds every class |
| `Events.FieldsShape` | restaurant/services/translation.py:49-51 | the blob of a payload holds exactly its class's own attributes with their values, and none of the base event's |
| `Events.FromData` | restaurant/events/base.py:63-66 | reading a blob for a class gives a payload of that class |
| `Events.FromDataOfFields` | restaurant/services/translation.py:22-26 | reading back the blob written from an encoded payload gives that payload |
| `Events.FieldsOfFromData` | restaurant/events/base.py:63-66 | a blob holding exactly its class's keys is the blob of the payload read from it |
| `RestaurantEvents.EncodeRef` | restaurant/events/restaurant.py:86 | `str` of a menu item id: a UUID becomes text that parses back to it, text stays as it is |
| `RestaurantEvents.CleanRef` | restaurant/events/restaurant.py:89 | `uuid.UUID` succeeds exactly on text that is a UUID, and gives that UUID |
| `RestaurantEvents.Encode` | restaurant/events/restaurant.py:85-86 | only `MenuItemAdded` and its subclass `MenuItemRemoved` change: their id is encoded; the class is kept |
| `RestaurantEvents.Clean` | restaurant/events/restaurant.py:88-89 | only the two menu item events change: their id is parsed, or the parse error is returned; the class is kept |
| `RestaurantEvents.CleanUndoesEncode` | restaurant/events/restaurant.py:85-89 | cleaning after encoding restores the original UUID |
| `RestaurantEvents.EncodeUndoesClean` | restaurant/events/restaurant.py:85-89 | encoding after a successful clean gives back the stored text |
| `RestaurantEvents.Fields` | restaurant/events/restaurant.py:11-15 | the blob holds exactly the class's attributes (name, year, location; employee name; menu item id), with their values |
| `RestaurantEvents.FromData` | restaurant/events/restaurant.py:22-30 | `create_from_event` builds the named class, and a blob with none of the class's keys fails on the first key |
| `RestaurantEvents.FromDataOfFields` | restaurant/events/restaurant.py:92-98 | reading back the blob of an event in stored form gives that event |
| `RestaurantEvents.FieldsOfFromData` | restaurant/events/restaurant.py:108-114 | a blob holding exactly the class's keys is the blob of the event read from it |
| `RestaurantEvents.TagInjective` | restaurant/events/restaurant.py:18-19 | the five restaurant tags are pairwise distinct |
| `MenuItemEvents.Fields` | restaurant/events/menu_item.py:10-13 | the blob holds exactly name and category, or the delta, with their values |
| `MenuItemEvents.FromData` | restaurant/events/menu_item.py:20-27 | `create_from_event` builds the named class, and a blob with none of its keys fails on the first key |
| `MenuItemEvents.FromDataOfFields` | restaurant/events/menu_item.py:41-47 | reading back the blob of an event gives that event; a delta of either sign is kept |
| `MenuItemEvents.FieldsOfFromData` | restaurant/events/menu_item.py:20-27 | a blob holding exactly the class's keys is the blob of the event read from it |
| `MenuItemEvents.TagInjective` | restaurant/events/menu_item.py:37-38 | the two menu item tags are distinct |
| `Records.TextField` | restaurant/events/restaurant.py:24 | `data[key]` of a string succeeds exactly when the key is present and holds text, giving that text; an absent key is the KeyError |
| `Records.NumberField` | restaurant/events/restaurant.py:25 | `data[key]` of an integer likewise |
| `Ids.ToText` | restaurant/events/restaurant.py:86 | the text form of a UUID has 36 characters with hyphens exactly at positions 8, 13, 18 and 23 |
| `Ids.FromText` | restaurant/events/restaurant.py:89 | parsing succeeds exactly on well-formed text |
| `Ids.HexValue` | restaurant/events/restaurant.py:89 | a character decodes to the one hexadecimal digit written as that character |
| `Ids.TextRoundTrip` | restaurant/events/restaurant.py:85-89 | parsing the text form of a UUID gives the UUID back |
| `Ids.TextCanonical` | restaurant/events/restaurant.py:85-89 | the only text that parses to a UUID is its text form |
| `Ids.TextInjective` | restaurant/events/restaurant.py:86 | distinct UUIDs have distinct text forms |
| `Translation.RegistryOf` | restaurant/services/translation.py:13-15 | the dict built by assigning each class under its tag holds every visited class's tag, and every entry maps a tag to a visited class with that tag |
| `Translation.RegistryAsWritten` | restaurant/services/translation.py:13-15 | the table as the constructor builds it, over the direct subclasses only; `RegistryAsWrittenMissesRemoved` and `AsWrittenRejectsRemoved` state what it lacks |
| `Translation.Registry` | restaurant/services/translation.py:13-15 | the table over every declared event class; `RegistryComplete` states that it finds each class under its own tag |
| `Translation.RegistryLookup` | restaurant/services/translation.py:14-15 | because tags are unique, every visited class is found under its own tag |
| `Translation.DirectSubclasses` | restaurant/services/translation.py:14 | `__subclasses__()` yields exactly the classes derived directly from the base event class |
| `Translation.RegistryAsWrittenMissesRemoved` | restaurant/services/translation.py:14-15 | as written, the tag of `MenuItemRemoved` is not registered |
| `Translation.AsWrittenRejectsRemoved` | restaurant/services/translation.py:22-26 | as written, reading back any stored `MenuItemRemoved` fails with the unknown-type error |
| `Translation.RegistryComplete` | restaurant/services/translation.py:13-15 | the corrected registry finds every event class under its own tag |
| `Translation.Translator.constructor` | restaurant/services/translation.py:10-15 | the registry loop builds exactly the corrected registry |
| `Translation.CreateFromEvent` | restaurant/events/restaurant.py:22-30 | `create_from_event` succeeds exactly when the blob reads and the revision is at least 0; the event has the class, the row's user id, revision and time, no stream id and no flag; a blob error is reported as such |
| `Translation.FromEnvelope` | restaurant/services/translation.py:22-26 | an unknown tag fails; a successful read has the registered class, the row's stream id, user, revision and time, no flag, and a payload in in-memory form |
| `Translation.RoundTrip` | restaurant/services/translation.py:17-26 | an event written to a row and read back is the same event (class, payload, stream id, user, revision, time) except that it is no longer a first observation |
| `Translation.ToEnvelope` | restaurant/services/translation.py:37-43 | the row `_translate_individual_event` fills in from an event: stream id, revision, time, user, tag and the blob of the encoded payload; `RoundTrip` and `EnvelopeRoundTrip` state that it and `FromEnvelope` undo each other |
| `Translation.EnvelopeRoundTrip` | restaurant/services/translation.py:22-53 | a row that reads back and whose blob has exactly its class's keys is the row written from what it reads back as |
| `Translation.TranslateEvent` | restaurant/services/translation.py:28-44 | one event translates exactly when its user exists, and otherwise fails on that user |
| `Translation.TranslateBatch` | restaurant/services/translation.py:17-20 | a batch translates exactly when every user exists, to one row per event in order, each copying the event's stream id, revision, time, user and tag with the blob of its encoded payload; a failure names a missing user |
| `Translation.TranslateBatchStops` | restaurant/services/translation.py:17-20 | the failure reported is the first missing user's |
| `Translation.FetchedSpec` | restaurant/services/translation.py:32-36 | the cache holds exactly the users fetched, each with its directory entry |
| `Translation.CacheStep` | restaurant/services/translation.py:32-36 | a cached user is reused without a fetch; an uncached one is fetched once and recorded |
| `Translation.CacheSound` | restaurant/services/translation.py:32-36 | the cache only holds directory entries |
| `Translation.FirstOccurrencesDistinct` | restaurant/services/translation.py:32-36 | the users a batch fetches are distinct and are exactly the batch's users |
| `Translation.UserIds` | restaurant/services/translation.py:32 | the user ids of a batch, one per event, in order |
| `Translation.Translator.BuildDataBlob` | restaurant/services/translation.py:46-53 | the encode hook runs on the event and nothing else of it changes; the blob is exactly the encoded payload's attributes |
| `Translation.Translator.TranslateIndividualEvent` | restaurant/services/translation.py:28-44 | the row is `TranslateEvent` of the event as it was; the cache gains the user only when it was neither cached nor missing; the payload is encoded only on success |
| `Translation.Translator.TranslateNext` | restaurant/services/translation.py:20 | event `i` of the batch translates to `TranslateEvent` of its value before the batch; on success it is encoded, and on failure every event is as the first `i` turns left it |
| `Translation.EncodedOrKept` | restaurant/services/translation.py:46-48 | after a batch translation, finished or not, each event is as it was or has only its payload encoded |
| `Translation.PayloadsEncodedOrKept` | restaurant/services/translation.py:17-20 | however many events the loop has translated, every event of the batch is kept or encoded |
| `Translation.Translator.TranslateToDjangoModels` | restaurant/services/translation.py:17-20 | the result is `TranslateBatch` of the events as they were; each distinct user is fetched once, in first-seen order; on success every event's payload is encoded and nothing else of it changes; after a failure each event is kept or only encoded |
| `Translation.Translator.TranslateEventToDomainEvent` | restaurant/services/translation.py:22-26 | fails with the error of `FromEnvelope`, or returns a fresh event whose value is its result |
| `EventStore.InsertAll` | restaurant/services/events.py:21-22 | a bulk insert that succeeds appends the whole batch in order |
| `EventStore.InsertAllKeepsUniqueKeys` | restaurant/models.py:24-25 | into a valid table, an insert succeeds exactly when the table plus the batch still has storable rows and unique (stream id, revision) keys |
| `EventStore.EventStore.constructor` | restaurant/services/events.py:14-17 | a new store is empty and valid |
| `EventStore.EventStore.BulkCreate` | restaurant/services/events.py:21-22 | all rows are inserted, or on the first error none; the unique key is kept |
| `EventStore.SaveRows` | restaurant/services/events.py:19-23 | a save that succeeds leaves the table followed by the translations of the pending events |
| `EventStore.EventStore.Save` | restaurant/services/events.py:19-23 | on success the table gains the translations of the uncommitted events, the entity's list is emptied and every payload ends encoded; on any failure the table and the list are kept, and each listed event is as it was or has only its payload encoded |
| `EventStore.EventStore.CountEventsById` | restaurant/services/events.py:35-36 | the count is the number of table rows that carry the stream id, so it is positive exactly when some row belongs to the stream |
| `EventStore.OfStream` | restaurant/services/events.py:35-36 | a stream's rows are no more than the table's |
| `EventStore.OfStreamNonEmpty` | restaurant/services/events.py:35-36 | a stream has rows exactly when some row carries its id |
| `EventStore.StreamRows` | restaurant/services/events.py:36 | the positions of the rows that `filter(event_stream_id=...)` matches |
| `EventStore.OfStreamCount` | restaurant/services/events.py:35-36 | the stream filter keeps exactly one row per matching row of the table |
| `EventStore.OfStreamMembers` | restaurant/services/events.py:35-36 | a stream's rows are table rows of that stream |
| `EventStore.Pick` | restaurant/services/events.py:33 | the filter keeps only rows of a requested stream up to the date |
| `EventStore.PickSub` | restaurant/services/events.py:33 | the filter only drops rows |
| `EventStore.PickComplete` | restaurant/services/events.py:33 | the filter drops no matching row |
| `EventStore.OfStreamPick` | restaurant/services/events.py:40 | picking several streams and then one of them is picking that one |
| `EventStore.InsertByRevision` | restaurant/services/events.py:33 | inserting into sorted rows adds exactly that row |
| `EventStore.InsertKeepsSorted` | restaurant/services/events.py:33 | insertion keeps rows sorted by revision |
| `EventStore.SortByRevision` | restaurant/services/events.py:33 | `order_by('revision')` is a permutation of its input |
| `EventStore.SortSorted` | restaurant/services/events.py:33 | its result is sorted by revision |
| `EventStore.SortOfSorted` | restaurant/services/events.py:33 | rows already in revision order are left as they are |
| `EventStore.OfStreamSort` | restaurant/services/events.py:40-41 | the stable sort commutes with taking one stream's rows |
| `EventStore.QueryContents` | restaurant/services/events.py:31-33 | a query returns every row of the streams up to the date and nothing else, each once, ordered by revision |
| `EventStore.Query` | restaurant/services/events.py:31-33 | `filter(...).order_by('revision')` on values, for one stream (`[id]`, line 33) or several (lines 40-41); `QueryContents` states that it returns every matching row, nothing else, sorted, and `QueryGroup` that a stream's share of a grouped query is its own query |
| `EventStore.QueryGroup` | restaurant/services/events.py:38-41 | one stream's share of a query over several streams is that stream's own query |
| `EventStore.TranslateAll` | restaurant/services/events.py:32-33 | the `map` succeeds exactly when every row reads back, giving one event per row in order |
| `EventStore.TranslateAllStops` | restaurant/services/events.py:32-33 | the failure reported is the first failing row's |
| `EventStore.TranslateAllCollects` | restaurant/services/events.py:32-33 | when every row reads back, the list is the list of their readings |
| `EventStore.EventsOf` | restaurant/services/entities.py:30-34 | one stream's events: no more than all events, and all of that stream |
| `EventStore.EventsOfMembers` | restaurant/services/entities.py:30-34 | a stream's list holds exactly the events that carry its id |
| `EventStore.EventsOfSnoc` | restaurant/services/entities.py:34 | one more event extends its own stream's list and no other |
| `EventStore.EventsOfTranslateAll` | restaurant/services/events.py:38-41 | reading keeps each row's stream id, so grouping the events is grouping the rows |
| `EventStore.EventStore.Materialize` | restaurant/services/events.py:32-33 | one fresh, distinct event object per row, whose values are `TranslateAll` of the rows, or its first error |
| `EventStore.EventStore.FindEventsById` | restaurant/services/events.py:31-33 | fresh events for the stream's query, translated; the error of the first row that does not read back |
| `EventStore.EventStore.FindEventsForIdIn` | restaurant/services/events.py:38-41 | the same for a query over several streams |
| `EntityServices.GetBaseEntity` | restaurant/services/entities.py:94-95 | a new entity of the service's class with the stream's id at revision 0 |
| `EntityServices.BuildEntityForEvents` | restaurant/services/entities.py:40-44 | the entity is the fold of the events, as they were on entry, over a new entity with the stream's id, or the first failing `apply`'s error; events that already carried a stream id are untouched |
| `EntityServices.ReplayStep` | restaurant/services/entities.py:42-43 | one `apply` of the loop acts as `Transition` on the event's value before the loop, even when the same object occurs twice |
| `EntityServices.LoadEntityUpTo` | restaurant/services/entities.py:22-26 | no entity when the stream has no events up to the date; otherwise a fresh entity that is `LoadValue`: the fold of those events over a new entity with that id, satisfying `Valid()`, with nothing uncommitted and no menu item objects; query and replay errors are passed on |
| `EntityServices.LoadValue` | restaurant/services/entities.py:22-26 | the single-stream load on values: the query's translation error, no entity for an empty stream, else the replay or its error; `LoadEntityUpTo` is proved against it and `SaveThenReload` states that it reloads what was saved |
| `EntityServices.AllObserved` | restaurant/projections/entities.py:36-39 | events without stream ids are all recorded, each bound, one for one |
| `EntityServices.SavedRowsQueried` | restaurant/services/events.py:31-33 | the rows a save writes for a new stream with revisions 1..N are exactly that stream's query |
| `EntityServices.Reloaded` | restaurant/services/translation.py:22-26 | events read back are the same events without the first-observation flag |
| `EntityServices.ReloadEnvelopes` | restaurant/services/translation.py:17-26 | rows written from in-memory events read back as those events, unflagged |
| `EntityServices.FreshObservations` | restaurant/services/entities.py:63-67 | a new entity applying new events records each of them, bound, in order, at revisions 1..N |
| `EntityServices.ReplayRecorded` | restaurant/services/entities.py:40-44 | replaying what a new entity recorded gives that entity back with nothing uncommitted |
| `EntityServices.SaveThenReload` | restaurant/tests/test_entity_event_save.py:12-30 | saving a new entity's events and loading its stream gives back the same id, revision and state, with nothing uncommitted |
| `EntityServices.StreamsOf` | restaurant/services/entities.py:30-34 | the keys of `event_group`: each stream id of the events once, and nothing else |
| `EntityServices.Replays` | restaurant/services/entities.py:36-37 | one replay per key, in key order |
| `EntityServices.Replay` | restaurant/services/entities.py:37 | one stream's replay within the found events; `KeyLoads` and `GroupIsOwnQuery` state that it is that stream's own single load |
| `EntityServices.Collect` | restaurant/services/entities.py:36-37 | a collected load has one value per replay, and a failure is a replay failure |
| `EntityServices.CollectEach` | restaurant/services/entities.py:36-37 | the collection succeeds exactly when every replay does and then holds their values in order; a failure is the first failing replay's |
| `EntityServices.CollectStops` | restaurant/services/entities.py:36-37 | once a prefix fails, the whole load fails with that error |
| `EntityServices.FoundBound` | restaurant/services/entities.py:31 | every event of a grouped query belongs to a requested stream |
| `EntityServices.GroupIsOwnQuery` | restaurant/services/entities.py:28-38 | a requested stream's events within the grouped query are exactly that stream's own query, read back |
| `EntityServices.KeyLoads` | restaurant/services/entities.py:36-37 | each key is requested, and a key's successful replay is its own single-stream load |
| `EntityServices.KeyFound` | restaurant/services/entities.py:30-34 | every requested stream with events up to the date becomes a key |
| `EntityServices.LoadMultipleIsEachLoad` | restaurant/services/entities.py:28-38 | loading several streams gives, once each and in first-seen order, for each stream with events up to the date, the entity its own load gives; streams without such events are skipped |
| `EntityServices.LoadMultipleFound` | restaurant/services/entities.py:28-38 | once the grouped query reads back, the load is the collection of its streams' replays |
| `EntityServices.GroupByStream` | restaurant/services/entities.py:30-34 | the first loop keys each stream in first-seen order and lists its events in query order |
| `EntityServices.AddToGroup` | restaurant/services/entities.py:32-34 | one step opens the stream's list when new, appends the event to it, and leaves other lists alone |
| `EntityServices.BuildOne` | restaurant/services/entities.py:37 | one group's entity is fresh, satisfies `Valid()` with no menu item objects, and is that stream's replay with nothing uncommitted, or the replay's error |
| `EntityServices.BuildGroups` | restaurant/services/entities.py:36-37 | the second loop builds one fresh entity per key, in key order, holding the collected values, or stops with the first failure |
| `EntityServices.BuildNext` | restaurant/services/entities.py:36-37 | one turn of the second loop extends the collected values by the key's replay, or reports the collection's first failure |
| `EntityServices.LoadMultipleUpTo` | restaurant/services/entities.py:28-38 | fresh entities whose values are `LoadMultipleValues`, one per stream in first-seen order, each satisfying `Valid()` with nothing uncommitted and no menu item objects, or that load's error |
| `EntityServices.LoadFound` | restaurant/services/entities.py:30-38 | the two loops over the fetched events give entities whose values are the collected replays of the streams in first-seen order, each satisfying `Valid()` with nothing uncommitted and no menu item objects, or the first replay failure |
| `EntityServices.LoadMultipleValues` | restaurant/services/entities.py:28-38 | the grouped load on values: the query's translation error, else the collected replays of the found streams; `LoadMultipleIsEachLoad` states that it is each stream's single load, once each, in first-seen order |
| `Commands.IssuedAll` | restaurant/services/entities.py:71-72 | a command's events have consecutive revisions from the entity's current one, one per payload, with no stream id |
| `Commands.Issued` | restaurant/services/entities.py:72 | a new event as a command builds it: the user, the given revision and time, no stream id, not yet observed; `IssuedAll` and `ObservedIssued` state what a command's run of them becomes |
| `Commands.ObservedIssued` | restaurant/projections/entities.py:36-39 | every event a command issues is a first observation, recorded bound to the entity |
| `Commands.IssuedRecorded` | restaurant/services/entities.py:71-73 | a command's applied events are recorded, in order and bound, after the events already pending |
| `Commands.ApplyNext` | restaurant/services/entities.py:72 | `apply` of a new event at `revision + 1` acts as that `Transition`; only fresh event objects join the uncommitted list |
| `Commands.ApplyEach` | restaurant/services/entities.py:71-72 | the loop's outcome is the fold of the issued events, or the first failure |
| `Commands.Commit` | restaurant/services/events.py:19-23 | the entity keeps its revision and state and stays `Valid()`; the save's rows are inserted and the uncommitted list emptied, or a failure leaves the table as it was and the entity holding the same events, each kept or only encoded |
| `Commands.Committed` | restaurant/services/events.py:19-23 | what every command promises after its applies with outcome `v`: `v`'s revision and state, and the saved rows with nothing pending, or on a failed save an unchanged table and `v`'s uncommitted events still held, one for one, kept or only encoded |
| `Commands.OpenRestaurant` | restaurant/services/entities.py:63-67 | a fresh, `Valid()` restaurant with the generated id and an empty menu object list, committed at `Opened` |
| `Commands.NewOpened` | restaurant/services/entities.py:64-65 | the unsaved restaurant is `Opened`, holding only fresh events |
| `Commands.Opened` | restaurant/services/entities.py:63-67 | the opened restaurant is at revision 1 with the given name, year and address and its opening event recorded |
| `Commands.Hires` | restaurant/services/entities.py:71-72 | one `EmployeeHired` per name, in order |
| `Commands.HireEmployees` | restaurant/services/entities.py:69-73 | the fold of the hires at the next revisions, committed; a failed `apply` saves nothing; the restaurant stays `Valid()`, and after a failed save it still holds its pending events |
| `Commands.HiresFold` | restaurant/services/entities.py:69-73 | hiring always succeeds on a restaurant: one revision per name, the employees become the old ones and the names, nothing else changes |
| `Commands.FireEmployee` | restaurant/services/entities.py:75-80 | an absent employee is the error, with nothing applied or saved and the pending events untouched; otherwise `Fired`, committed; the restaurant stays `Valid()`, and after a failed save it still holds its pending events |
| `Commands.Fired` | restaurant/services/entities.py:75-78 | one revision on, the firing recorded, the employee gone from a duplicate-free list, every other employee kept, nothing else changed |
| `Commands.Refs` | restaurant/services/entities.py:84 | the ids the menu events carry, one per item object |
| `Commands.Additions` | restaurant/services/entities.py:83-84 | one `MenuItemAdded` per item, in order |
| `Commands.AddItemsToMenu` | restaurant/services/entities.py:82-86 | the fold of the additions, the item objects appended to the menu list, committed; a failed `apply` saves nothing; the restaurant stays `Valid()`, and after a failed save it still holds its pending events |
| `Commands.AddEach` | restaurant/services/entities.py:83-85 | the loop reaches the fold of the additions and appends every item object; on a failure the error is returned |
| `Commands.AddNext` | restaurant/services/entities.py:84-85 | one `apply` at the next revision, and the item appended to the list only when it applied |
| `Commands.AdditionsFold` | restaurant/services/entities.py:82-86 | adding always succeeds on a restaurant: one revision per item, the menu item ids become the old ones and the items', nothing else changes |
| `Commands.RemovalFirst` | restaurant/services/entities.py:89-91 | one step of the removal loop: the `apply`, then the `list.remove` that fails on an absent item, then the rest |
| `Commands.Removal` | restaurant/services/entities.py:89-91 | the removal loop on values: each item's `apply` at the next revision, then its `list.remove`, stopping at the first failure; `RemovalOnRestaurant` and `RemovalTakesItems` state its outcome, and `RemoveEach` is proved against it |
| `Commands.RemoveItemsFromMenu` | restaurant/services/entities.py:88-92 | the removal loop's outcome, committed; on its failure nothing is saved; the restaurant stays `Valid()`, and after a failed save it still holds its pending events |
| `Commands.RemoveEach` | restaurant/services/entities.py:89-91 | the loop's entity and menu list are those of `Removal`, or its error |
| `Commands.RemoveNext` | restaurant/services/entities.py:90-91 | one turn of the loop is one step of `Removal` |
| `Commands.RemovalOnRestaurant` | restaurant/services/entities.py:88-92 | on a restaurant removal fails only for an item object not on the list; otherwise one revision per item, each item's id off the menu, the other ids and attributes kept |
| `Commands.RemovalTakesItems` | restaurant/services/entities.py:91 | a successful removal takes the item objects off the list one for one |
| `Commands.RemovedOne` | restaurant/projections/entities.py:79-81 | one `MenuItemRemoved` on a restaurant applies, takes the id off and keeps everything else |
| `Commands.RestaurantExists` | restaurant/services/entities.py:97-98 | a restaurant exists exactly when some stored row belongs to its stream |
| `Commands.SetPricePure` | restaurant/services/entities.py:122-123 | the menu item becomes `Repriced` |
| `Commands.Repriced` | restaurant/services/entities.py:122-123 | one revision on, the price becomes exactly the new price, name and category kept, and the change recorded with delta `new - current` |
| `Commands.SetPrice` | restaurant/services/entities.py:117-120 | `Repriced`, committed; the menu item stays `Valid()`, and after a failed save it still holds its pending events |
| `Commands.CreateMenuItem` | restaurant/services/entities.py:109-115 | a fresh, `Valid()` menu item with the generated id, committed at `Created` |
| `Commands.NewCreated` | restaurant/services/entities.py:110-113 | the unsaved menu item is `Created`, holding only fresh events |
| `Commands.Created` | restaurant/services/entities.py:109-115 | the created menu item is at revision 2 with the given name, category and price and both events recorded (the price change as the whole price, from 0) |

## Left out

- The Django ORM and PostgreSQL: the events table is a sequence of row records, and the users table is a map from user id to user. `bulk_create`'s `batch_size` is not modelled, so a batch is all or nothing.
- The JSON blob holds only the two value kinds the events use, text and integers.
- `Records.TextField`: refuses a blob field that holds an integer, whereas `create_from_event` carries whatever value the blob holds into the event; the model keeps the event fields typed.
- `Records.NumberField`: refuses a blob field that holds text, whereas `create_from_event` carries whatever value the blob holds into the event.
- `RestaurantEvents.FromData`: turns a field of the wrong kind into an error, whereas `create_from_event` builds the event with that value as it is.
- `MenuItemEvents.FromData`: turns a field of the wrong kind into an error, whereas `create_from_event` builds the event with that value as it is; for `menu_item_id` the source fails only later, when the clean hook calls `uuid.UUID` on it.
- `created_at` is not modelled, and neither is the time-zone attachment of `timezone.make_aware`. Times are an abstract ordered value.
- The clocks: every time and date, and the default `year` of `open_restaurant`, is an explicit parameter. Python evaluates those defaults once, at definition time; the model does not capture that.
- `uuid.uuid4()` is the parameter `generated`.
- The UUID text codec is concrete. The model writes the canonical lower-case 8-4-4-4-12 form and parses only that form. `uuid.UUID` also accepts braces, upper case and missing hyphens; the model does not.
- The reflection is replaced by explicit lists: `__subclasses__()` by a list of the seven classes with each class's declared parent, and `dir()` by each class's list of attribute names.
- SQL returns rows of equal revision in an unspecified order. The model sorts stably by revision, keeping insertion order among equal revisions.
- Logging (restaurant/services/events.py:20) is left out.
- Concurrency is left out. The unique key turns a second writer away as an insert error.
- `load_associated` is a cross-service database fetch and is not modelled. The `get_current` and `get_multiple_current` wrappers are not modelled either: they call `_load_entity_up_to` and `_load_multiple_up_to` with the default `time`, which Python fixed once, when the service class was defined.
- There is one class `Aggregate` for both entities. Its state has a restaurant form and a menu item form. The class has a `menuItems` field that only restaurants use.
- The commands require an entity of the right kind. The source states this only as a type annotation.
- `user.id` is an integer. The source never passes None there.
- `EventStore.EventStore.Save`: when translation fails part-way, the source has already encoded the payloads of the events before the failing one. After a failure the contract states only that each event is kept or encoded, not which ones were encoded.
- `Commands.AddItemsToMenu`, `Commands.RemoveItemsFromMenu` and `Commands.HireEmployees`: when an `apply` fails mid-way, the contracts state the error and an unchanged table. They do not state the entity's partial in-memory state.
- `EntityServices.StreamsOf`: an event without a stream id would form a group under None in the source. Rows read from the table always carry a stream id, so the model gives such an event no group.
- `EntityServices.LoadEntityUpTo` and `EntityServices.LoadMultipleUpTo`: the methods use the corrected registry, and their specifications take the registry as a parameter.

## Findings

| source | as written | input that shows it | evidently intended | confidence | as-written member | corrected member |
|---|---|---|---|---|---|---|
| restaurant/services/translation.py:14-15 | the registry loops over `DjangoModelTranslatableBaseEvent.__subclasses__()`, which lists only direct subclasses; `MenuItemRemoved` derives from `MenuItemAdded`, so the tag `restaurant.menuitem.removed` is never registered | save a restaurant to which `remove_items_from_menu` applied one item, then load it: reading the `MenuItemRemoved` row fails on the registry lookup | every declared event class is registered under its tag, so every saved event reads back | not executed | `Translation.RegistryAsWrittenMissesRemoved` | `Translation.RegistryComplete` |

`Translation.AsWrittenRejectsRemoved` states that, as written, every stored
`MenuItemRemoved` fails to read back. `Translation.RoundTrip` states that,
with the corrected registry, every event reads back. The `Translator` class
uses the corrected registry.
