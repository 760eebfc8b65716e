# App-event routing registry and Pipedrive person payload, in Dafny

This project models two pieces of the activepieces server and piece library.

**The app-event routing registry** (`routing.dfy`, module `AppEventRouting`).
The registry keeps a table of routes. Each route binds one event of an
external app, qualified by an identifier value, to a flow of a project.
- `createListeners` upserts one row per event. Its conflict key is
  `(appName, event, identifierValue, projectId)`.
- `listListeners` returns the rows that carry a given
  `(appName, event, identifierValue)`.
- `deleteListeners` removes every row of a `(projectId, flowId)` pair.

In the model, class `RouteTable` holds the table as `rows: seq<Route>` and
stands in for the repository. Its invariant `Valid()` is `UniqueKeys`: at
most one row per conflict key. Each method is tied to a specification
function:
- `Select` for the repository's `findBy` and `delete` filters;
- `Upsert` for the conflict-keyed upsert;
- `CreateAll` for a whole `createListeners` call, a fold of `Upsert` over the events.

Lemmas about these functions state the registry's guarantees:
- the listing is exact;
- each registered event ends with exactly one row, bound to the flow;
- the invariant is preserved;
- re-registering a stored key overwrites it and adds no row;
- `createListeners` is idempotent on (key, flowId) bindings;
- rows with other keys are untouched;
- two upserts on distinct keys commute up to row order;
- the order of a call's events does not change the bindings it leaves;
- on the same key, the later upsert wins;
- a delete touches exactly its (project, flow) pair.

**The Pipedrive "Create Person" data shaping** (`pipedrive_person.dfy`,
module `PipedrivePerson`). This covers the body that `run` posts to
`/persons`:
- the seven default fields;
- `phone`, `email` and `label_ids`, added only when non-empty, with a missing
  input counting as empty;
- the custom fields, with arrays flattened to comma-joined text;
- the merge in which a custom field wins over a default field.

It also covers the dropdown loaders: the label options taken from the first
`label_ids` field, and the disabled, empty answer every loader gives without
a connection. Property values are a small datatype: absent, string, number
or array. Joining follows `Array.prototype.join`: undefined and null render
as the empty string, and nested arrays are joined recursively. A `Split`
function is proved to undo the join for a non-empty array whose elements
contain no comma. An empty array joins to the empty string, which splits
into one empty part.

`wrappers.dfy` holds the `Option` type both modules use.

Two consequences of the code that the model keeps:
- `flowId` is not a conflict column: the conflict columns are `appName`,
  `event`, `identifierValue` and `projectId` (`packages/server/api/src/app/app-event-routing/app-event-routing.service.ts` line 52).
  Re-registering a key for another flow therefore overwrites that key's flow.
- `createListeners` returns `Promise<void>` (line 37), so the model's
  `CreateListeners` returns nothing.

## Model

| member | source | states |
|---|---|---|
| `AppEventRouting.ListFilter` | packages/server/api/src/app/app-event-routing/app-event-routing.service.ts:23 | the `findBy` filter of listListeners: appName, event and identifierValue given, the other columns free; `ListListenersExact` states what it selects |
| `AppEventRouting.FlowFilter` | packages/server/api/src/app/app-event-routing/app-event-routing.service.ts:65-68 | the `delete` filter of deleteListeners: projectId and flowId given, the other columns free; `DeleteListenersScope` states what it removes |
| `AppEventRouting.Select` | packages/server/api/src/app/app-event-routing/app-event-routing.service.ts:23 | findBy/delete filter: each row appears in the result exactly as often as stored when its filter match equals `keep`, else not at all; every result row has that match; the result is no longer than the table |
| `AppEventRouting.SelectAppend` | packages/server/api/src/app/app-event-routing/app-event-routing.service.ts:23 | selection keeps table order: it distributes over concatenation |
| `AppEventRouting.SelectKeepsUnique` | packages/server/api/src/app/app-event-routing/app-event-routing.service.ts:65-68 | removing rows keeps at most one row per conflict key |
| `AppEventRouting.SelectMembers` | packages/server/api/src/app/app-event-routing/app-event-routing.service.ts:23 | a row is in the selection iff it is stored and its filter match equals `keep` |
| `AppEventRouting.SelectAll` | packages/server/api/src/app/app-event-routing/app-event-routing.service.ts:65-68 | when every row's filter match equals `keep` the selection is the whole table |
| `AppEventRouting.ListListenersExact` | packages/server/api/src/app/app-event-routing/app-event-routing.service.ts:14-24 | listListeners returns a row iff it is stored and carries the given appName, event and identifierValue (any project); the result is empty iff no stored row carries the triple |
| `AppEventRouting.IndexOfKey` | packages/server/api/src/app/app-event-routing/app-event-routing.service.ts:52 | finds the first row whose (appName, event, identifierValue, projectId) equals the key, and answers None iff no row has it |
| `AppEventRouting.Upsert` | packages/server/api/src/app/app-event-routing/app-event-routing.service.ts:43-53 | upsert: the route is stored afterwards; the row count grows by one iff the key was not stored |
| `AppEventRouting.UpsertFrame` | packages/server/api/src/app/app-event-routing/app-event-routing.service.ts:43-53 | an upsert leaves every old row in its place with its key; rows of other keys are unchanged; every row is the route or an old row |
| `AppEventRouting.UpsertBinds` | packages/server/api/src/app/app-event-routing/app-event-routing.service.ts:43-53 | after an upsert the route's key is bound to the route's flowId |
| `AppEventRouting.UpsertKeepsOtherBinding` | packages/server/api/src/app/app-event-routing/app-event-routing.service.ts:43-53 | an upsert keeps every (key, flowId) binding of another key |
| `AppEventRouting.UpsertKeepsUnique` | packages/server/api/src/app/app-event-routing/app-event-routing.service.ts:52 | an upsert preserves at most one row per conflict key |
| `AppEventRouting.UpsertOverwrites` | packages/server/api/src/app/app-event-routing/app-event-routing.service.ts:43-53 | upserting a stored key keeps the row count and leaves the key bound to the new flow, with no row of that key left on another flow |
| `AppEventRouting.UpsertsCommute` | packages/server/api/src/app/app-event-routing/app-event-routing.service.ts:42-56 | two upserts on distinct conflict keys, applied one after the other, leave the same rows up to row order |
| `AppEventRouting.UpsertLastWriteWins` | packages/server/api/src/app/app-event-routing/app-event-routing.service.ts:43-53 | two upserts on one key leave exactly what the later one alone would |
| `AppEventRouting.RouteFor` | packages/server/api/src/app/app-event-routing/app-event-routing.service.ts:44-51 | the row upserted for one event: the given id, the subscription's appName, identifierValue, flowId and projectId, and the event; `CreateAllBindingsExact` states what it binds |
| `AppEventRouting.CreateAll` | packages/server/api/src/app/app-event-routing/app-event-routing.service.ts:42-55 | the table after one createListeners call: the upsert of each event's route in turn, `ids[i]` being the id made for `events[i]`; its properties are the `CreateAll*` lemmas below |
| `AppEventRouting.CreateAllKeepsUnique` | packages/server/api/src/app/app-event-routing/app-event-routing.service.ts:42-55 | createListeners preserves at most one row per conflict key |
| `AppEventRouting.CreateAllBinds` | packages/server/api/src/app/app-event-routing/app-event-routing.service.ts:42-55 | after createListeners every event's key (appName, e, identifierValue, projectId) is bound to the given flowId |
| `AppEventRouting.CreateAllRegisters` | packages/server/api/src/app/app-event-routing/app-event-routing.service.ts:42-55 | on a valid table, afterwards exactly one row holds each event's key (duplicated events included) and that row's flowId is the given one |
| `AppEventRouting.CreateAllKeepsKeys` | packages/server/api/src/app/app-event-routing/app-event-routing.service.ts:42-55 | createListeners adds at most one row per event and keeps every stored row in its place with its key |
| `AppEventRouting.CreateAllUntouched` | packages/server/api/src/app/app-event-routing/app-event-routing.service.ts:42-55 | rows whose key is not one of the events' keys are left unchanged by createListeners |
| `AppEventRouting.CreateAllWritesOnlyFlow` | packages/server/api/src/app/app-event-routing/app-event-routing.service.ts:42-55 | every row createListeners changes or adds is a route of the given flow for one of the events |
| `AppEventRouting.CreateAllFrame` | packages/server/api/src/app/app-event-routing/app-event-routing.service.ts:42-55 | createListeners adds at most one row per event; stored rows keep place and key; rows whose key is not being registered are unchanged; every changed or new row is a route of the given flow for one of the events; no events leaves the table unchanged |
| `AppEventRouting.CreateAllNoGrowth` | packages/server/api/src/app/app-event-routing/app-event-routing.service.ts:43-53 | when every event's key is already stored, createListeners adds no row |
| `AppEventRouting.UpsertRebinds` | packages/server/api/src/app/app-event-routing/app-event-routing.service.ts:43-53 | upserting a key already bound to the same flow changes no (key, flowId) binding |
| `AppEventRouting.CreateAllRebinds` | packages/server/api/src/app/app-event-routing/app-event-routing.service.ts:42-56 | registering events whose keys are all bound to the flow already changes no (key, flowId) binding |
| `AppEventRouting.CreateListenersIdempotent` | packages/server/api/src/app/app-event-routing/app-event-routing.service.ts:25-57 | calling createListeners twice with the same arguments leaves, position by position, the same (key, flowId) bindings as calling it once; only the ids may differ |
| `AppEventRouting.CreateAllBindingsExact` | packages/server/api/src/app/app-event-routing/app-event-routing.service.ts:42-56 | on a table with unique keys, after createListeners a key of one of the events is bound to the given flow and to nothing else, and every other key keeps exactly its old bindings |
| `AppEventRouting.CreateListenersOrderFree` | packages/server/api/src/app/app-event-routing/app-event-routing.service.ts:42-56 | two createListeners calls over the same set of events, in any order, with repeats and with any ids, leave the same set of (key, flowId) bindings, with unique keys |
| `AppEventRouting.DeleteListenersScope` | packages/server/api/src/app/app-event-routing/app-event-routing.service.ts:58-69 | deleteListeners(P, F) leaves no row of project P and flow F; every other row keeps its multiplicity, whatever its app, event or identifier |
| `AppEventRouting.DeleteListenersNoMatch` | packages/server/api/src/app/app-event-routing/app-event-routing.service.ts:65-68 | deleting a pair that owns no row succeeds and leaves the table unchanged |
| `AppEventRouting.DeleteThenListNone` | packages/server/api/src/app/app-event-routing/app-event-routing.service.ts:65-68 | after deleteListeners(P, F) no listing of any triple returns a row of P and F |
| `AppEventRouting.RouteTable.ListListeners` | packages/server/api/src/app/app-event-routing/app-event-routing.service.ts:14-24 | returns the findBy selection of the table on (appName, event, identifierValue): a row is returned iff it is stored and carries the triple |
| `AppEventRouting.RouteTable.UpsertRoute` | packages/server/api/src/app/app-event-routing/app-event-routing.service.ts:43-53 | the repository upsert on the conflict columns; keeps the table invariant |
| `AppEventRouting.RouteTable.CreateListeners` | packages/server/api/src/app/app-event-routing/app-event-routing.service.ts:25-57 | one upsert per event in order; the new table is CreateAll of the old one; keeps the invariant; every event's key is bound to the flow |
| `AppEventRouting.RouteTable.DeleteListeners` | packages/server/api/src/app/app-event-routing/app-event-routing.service.ts:58-69 | the new table is the old one without the rows of (projectId, flowId), in order; keeps the invariant |
| `PipedrivePerson.IntText` | packages/pieces/community/pipedrive/src/lib/actions/create-person.ts:215 | `String(n)` of an integer: a non-empty text without a comma, read back by `IntTextRoundTrip` |
| `PipedrivePerson.NatText` | packages/pieces/community/pipedrive/src/lib/actions/create-person.ts:215 | the decimal text of a number is a non-empty string of digits, without a leading zero unless the number is 0 |
| `PipedrivePerson.NatTextRoundTrip` | packages/pieces/community/pipedrive/src/lib/actions/create-person.ts:215 | reading back the decimal text of a natural number gives the number |
| `PipedrivePerson.IntTextRoundTrip` | packages/pieces/community/pipedrive/src/lib/actions/create-person.ts:215 | reading back the text String(n) gives n, for negative numbers too |
| `PipedrivePerson.Join` | packages/pieces/community/pipedrive/src/lib/actions/create-person.ts:215 | `Array.prototype.join`: the parts with the separator between neighbours; `SplitJoin` states what it keeps |
| `PipedrivePerson.ItemTexts` | packages/pieces/community/pipedrive/src/lib/actions/create-person.ts:215 | the texts `join` gives the elements of an array, one per element, in order |
| `PipedrivePerson.ToText` | packages/pieces/community/pipedrive/src/lib/actions/create-person.ts:215 | the text `join` gives one element: undefined and null give the empty string, a number its decimal text, an array its elements joined by ','; `FlattenSplitsBack` states its content |
| `PipedrivePerson.SplitJoin` | packages/pieces/community/pipedrive/src/lib/actions/create-person.ts:215 | join(',') of non-empty parts without commas is undone by splitting at ',' |
| `PipedrivePerson.Flatten` | packages/pieces/community/pipedrive/src/lib/actions/create-person.ts:215 | a flattened value is never an array; an array becomes a string, the empty array the empty string; any other value passes unchanged |
| `PipedrivePerson.FlattenSplitsBack` | packages/pieces/community/pipedrive/src/lib/actions/create-person.ts:213-216 | a flattened non-empty array splits back at ',' into the texts of its elements, in order, when no element contains a comma |
| `PipedrivePerson.FlattenNumbersSplitsBack` | packages/pieces/community/pipedrive/src/lib/actions/create-person.ts:215 | a flattened non-empty array of numbers always splits back into its numbers' texts |
| `PipedrivePerson.OrEmpty` | packages/pieces/community/pipedrive/src/lib/actions/create-person.ts:184-186 | `?? []` on the phone, email and label id inputs: a missing list counts as empty; `DefaultEntries` states the resulting presence of phone, email and label_ids |
| `PipedrivePerson.OrEmptyRecord` | packages/pieces/community/pipedrive/src/lib/actions/create-person.ts:187 | `?? {}` on the custom fields: missing custom fields count as none; `PersonRequestBody` states the resulting body |
| `PipedrivePerson.DefaultEntry` | packages/pieces/community/pipedrive/src/lib/actions/create-person.ts:189-209 | the value of each key of `personDefaultFields`, or none for a key the record leaves out; `DefaultEntries` states it key by key |
| `PipedrivePerson.DefaultEntries` | packages/pieces/community/pipedrive/src/lib/actions/create-person.ts:184-209 | the default record always has name, owner_id, org_id, marketing_status, visible_to, first_name and last_name from their inputs; phone, email and label_ids are present iff the input is given and non-empty, and then hold it |
| `PipedrivePerson.DefaultFields` | packages/pieces/community/pipedrive/src/lib/actions/create-person.ts:182-209 | the record built step by step has exactly the keys of the default-field table and each key's value from it |
| `PipedrivePerson.FormatCustomFields` | packages/pieces/community/pipedrive/src/lib/actions/create-person.ts:211-216 | the custom-field loop keeps the set of keys and flattens each value |
| `PipedrivePerson.Merge` | packages/pieces/community/pipedrive/src/lib/actions/create-person.ts:223-226 | the body has the keys of both records; a custom value wins a collision; other default values are kept |
| `PipedrivePerson.PersonRequestBody` | packages/pieces/community/pipedrive/src/lib/actions/create-person.ts:182-226 | body keys are the custom keys plus the default keys; each custom key holds its flattened value; other default keys hold their default value |
| `PipedrivePerson.AccountDropdown` | packages/pieces/community/pipedrive/src/lib/actions/create-person.ts:35-71 | owner and organization loaders: disabled, empty, with the connect prompt, without auth; enabled with the fetched options and no placeholder with auth |
| `PipedrivePerson.FindField` | packages/pieces/community/pipedrive/src/lib/actions/create-person.ts:101 | finds the first field with the key, or None when no field has it |
| `PipedrivePerson.IsLabelOptions` | packages/pieces/community/pipedrive/src/lib/actions/create-person.ts:102-110 | what the label loop must produce: nothing without a label_ids field, otherwise one option per option of the first such field, in order, label to label and id to value |
| `PipedrivePerson.LabelOptions` | packages/pieces/community/pipedrive/src/lib/actions/create-person.ts:101-110 | label options: none without a label_ids field; otherwise one per option of the first such field (missing options count as none), in order, label to label and id to value |
| `PipedrivePerson.LabelIdsDropdown` | packages/pieces/community/pipedrive/src/lib/actions/create-person.ts:85-116 | without auth: disabled, empty, connect prompt; with auth: enabled with the label options and no placeholder |
| `PipedrivePerson.CustomFieldProps` | packages/pieces/community/pipedrive/src/lib/actions/create-person.ts:173-178 | no custom-field properties without auth, the fetched ones with auth |

## Left out

- The database and `repoFactory`: the table is an in-memory sequence. Store errors (connection loss, constraint violations) are not modelled. Neither is the way a failing upsert inside `createListeners` fails the call without undoing the upserts that succeeded.
- `Upsert` replaces the whole stored row, new `id` included, as an insert-or-update over all non-conflict columns does. Whether a real store regenerates or keeps `id` depends on the store. The contracts that compare whole rows rely on this choice, because the stored row takes the new `id`: `Upsert` (the route is in the table), `UpsertFrame` (every row is the route or the old row), `UpsertOverwrites` (the row of the key equals the route), `UpsertLastWriteWins` and `UpsertsCommute`. The `CreateAll*` lemmas, `CreateListenersIdempotent` and `CreateListenersOrderFree` speak only of keys and flows (rows kept unchanged aside), and hold whichever `id` the store keeps.
- `apId()`: the ids are an input sequence, `ids[i]` for `events[i]`. Freshness of ids is not modelled.
- `Promise.all`: the per-event upserts run as a sequential loop. Concurrent callers and races between them are left out. `CreateListenersOrderFree` states that the order of a call's events does not change the set of (key, flowId) bindings it leaves. The row order, and which generated id a repeated event's row keeps, do depend on the order.
- `logger.info`: observability only.
- All HTTP calls of the Pipedrive action: `pipedriveApiCall`, `pipedrivePaginatedApiCall`, and the `/persons` and `/personFields` requests. What they fetch becomes a parameter (`fetched`, `personFields`).
- `pipedriveTransformCustomFields`, `retriveObjectCustomProperties`, `fetchOwnersOptions` and `fetchOrganizationsOptions` are not part of this model. The rewriting of the response after `/persons` (lines 229-244) is therefore left out.
- The pieces-framework declarations: `createAction`, the `Property.*` metadata and the static dropdown literals.
- JSON serialisation: the body is a map. Undefined values are kept as `Absent` and not dropped. Key order is not modelled.
- Numbers are integers. JavaScript's rendering of fractional, exponent or special numbers in `join` is not modelled.
- The casts `as string[]` and `as number[]` are taken at their word: phone and email are lists of strings, label ids a list of numbers.
