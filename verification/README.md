# KEDB core, modelled in Dafny

KEDB is a known-error database: operators record recurring faults as
entries (title, description, severity, workflow state, status, root cause)
with ordered symptoms and linked incidents, label them with tags, and
browse them on a dashboard and in a browser client. This project models the
parts of KEDB that hold its logic and proves properties of them:

- the **entry store** (`EntryCrud.EntryStore`). It keeps `map<Id, Entry>`
  aggregates and supports create, get, the newest-first paged list, partial
  update and delete. The HTTP handlers above it (`EntryApi`) map the
  outcomes to 201/200/204/404, and request bodies that break the schema
  constraints to 422 (`EntrySchemas`);
- the **tag registry** (`TagCrud.TagStore`, `TagApi`, `TagSchemas`). Names
  are unique at creation only. Tag updates never clear a field. Colours
  must match `^#[0-9A-Fa-f]{6}$`;
- the **dashboard counters** (`Stats`): per-member counts, distributions,
  the 30-day window and the ten most used tags;
- the **client's mapping** between backend and screen records
  (`ApiMapping`);
- the **client's list state**: the search filter and how the list follows
  delete, update and create (`ClientState`).

Shared pieces:

- `Query` models `ORDER BY … OFFSET … LIMIT`. It arranges keys by a total
  preorder and cuts a window out of the arrangement. SQL leaves the order
  among equal sort keys open, so list results are stated for *some* order
  that respects the sort key.
- `Text` holds ASCII case mapping, substring search, `join` and code-point
  string order.
- `Validation` holds the length-bound checks of the request schemas.

Modelling conventions:

- Identifiers are `nat`, handed out by a counter inside each store. The
  counter stands for the database's UUID default.
- Timestamps are integer seconds. The current time is a parameter `now`.
- The acting user is a parameter. The entry handlers default it to
  `"test_user"`.
- A request's result, for the client, is a parameter of the handler that
  awaits it.

## Model

| member | source | states |
|---|---|---|
| Query.Window | backend/app/crud/entry.py:40-41 | OFFSET skip LIMIT limit: at most `limit` rows, exactly min(limit, rows after skip) of them, row i being row skip+i of the input |
| Query.ArrangeKeys | backend/app/crud/entry.py:42 | the sort lists every key exactly once, in an order that respects the sort relation |
| Query.WindowKeepsOrder | backend/app/crud/entry.py:40-42 | a page cut from a sorted arrangement is sorted |
| Query.FirstWindowDominates | backend/app/api/v1/endpoints/stats.py:79-80 | a key that LIMIT leaves out may come after every key it keeps |
| Query.ShortFirstWindowIsAll | backend/app/api/v1/endpoints/stats.py:80 | a first page shorter than the limit holds every row |
| Query.ArrangesLength | backend/app/crud/entry.py:42 | an arrangement has exactly as many positions as there are keys |
| Text.JoinEmptyIff | frontend/src/services/api.ts:66 | `join('; ')` is empty exactly for no parts or one empty part |
| Text.ContainsAt | frontend/src/App.tsx:123-126 | when `includes` holds, the needle occurs at some position that fits inside the text |
| Text.AtContains | frontend/src/App.tsx:123-126 | an occurrence at any position that fits makes `includes` hold; with ContainsAt, containment is exactly occurrence |
| Text.LexLeTotal | backend/app/crud/tag.py:26 | any two names are ordered one way or the other |
| Text.LexLeTrans | backend/app/crud/tag.py:26 | name order is transitive |
| Text.LexLeAntisymmetric | backend/app/crud/tag.py:26 | names ordered both ways are equal |
| EntrySchemas.SymptomViolations | backend/app/schemas/entry.py:13-17 | no violation iff description has 1..1000 characters, order_index ≥ 0 and symptom_type is absent or at most 100 |
| EntrySchemas.IncidentViolations | backend/app/schemas/entry.py:36-42 | no violation iff incident_id has 1..255 characters, incident_source 1..100, incident_url absent or at most 1000 |
| EntrySchemas.SymptomListViolations | backend/app/schemas/entry.py:76 | no violation iff every listed symptom is valid |
| EntrySchemas.IncidentListViolations | backend/app/schemas/entry.py:77 | no violation iff every listed incident is valid |
| EntrySchemas.BaseViolations | backend/app/schemas/entry.py:61-68 | no violation iff title has 1..500 characters, description is non-empty and detection_method is absent or at most 255 |
| EntrySchemas.InitialWorkflowState | backend/app/schemas/entry.py:73 | an omitted workflow_state is draft, a given one is kept |
| EntrySchemas.InitialStatus | backend/app/schemas/entry.py:74 | an omitted status is active, a given one is kept |
| EntrySchemas.EntryCreateViolations | backend/app/schemas/entry.py:71-77 | no violation iff the base fields, created_by (non-empty) and every given symptom and incident are valid |
| EntrySchemas.EntryUpdateViolations | backend/app/schemas/entry.py:80-90 | no violation iff each field present obeys the creation bounds and a present updated_by is non-empty |
| EntrySchemas.EmptyUpdateIsValid | backend/app/schemas/entry.py:80-90 | every update field is optional: the empty body is valid |
| EntryCrud.NewestFirstIsTotalPreorder | backend/app/crud/entry.py:42 | `created_at DESC` is a total preorder on stored ids |
| EntryCrud.EntryStore.Get | backend/app/crud/entry.py:12-26 | the stored aggregate for a present id, None for an absent one, nothing changed |
| EntryCrud.EntryStore.List | backend/app/crud/entry.py:29-45 | the [skip, skip+limit) window of a newest-first arrangement of the store: at most limit stored entries, created_at non-increasing, all of them when skip is 0 and they fit |
| EntryCrud.EntryStore.Create | backend/app/crud/entry.py:48-70 | one fresh key holding the aggregate built from the payload: created_by is the actor, never the payload's; symptom i has order_index i; incidents in input order; no tags; other entries unchanged |
| EntryCrud.EntryStore.Update | backend/app/crud/entry.py:73-83 | None and no change for an absent id; otherwise the `setattr` loop over the set fields followed by the updated_by stamp, equal to `Patched`, and only that key changes |
| EntryCrud.EntryStore.Delete | backend/app/crud/entry.py:86-92 | None and no change for an absent id; otherwise the removed aggregate, exactly that key gone, and no remaining entry owns a child of it |
| EntryCrud.AssignAllAppend | backend/app/crud/entry.py:78-79 | assigning a field list is assigning its parts in turn |
| EntryCrud.StepTitle | backend/app/crud/entry.py:78-79 | after any earlier assignments, a given title is set and nothing else changes; an absent one changes nothing (one such lemma per update field, StepDescription … StepDetectionMethod) |
| EntryCrud.AssignAllIsPatched | backend/app/crud/entry.py:77-80 | the loop over the set fields, then the stamp, gives the field-wise definition `Patched` |
| EntryCrud.PatchedChangesOnlyGivenFields | backend/app/crud/entry.py:77-80 | each explicitly set field takes the payload's value, every other field and all children keep theirs, updated_by is the actor even when the payload set it |
| EntryCrud.EmptyUpdateOnlyStamps | backend/app/crud/entry.py:77-80 | an empty payload changes only updated_by and updated_at |
| EntryCrud.CreateAsWrittenAlwaysRaises | backend/app/crud/entry.py:57-65 | as written, create_entry raises TypeError when symptoms are given and AttributeError otherwise |
| EntryApi.CreateEntry | backend/app/api/v1/endpoints/entry.py:14-24 | 422 and no change for an invalid body; otherwise 201 with a fresh entry built from the body whose created_by is `current_user_id` |
| EntryApi.ReadEntry | backend/app/api/v1/endpoints/entry.py:27-36 | 200 with the stored aggregate, or 404 "Entry not found" |
| EntryApi.ReadEntries | backend/app/api/v1/endpoints/entry.py:39-47 | 200 with the store's newest-first page for the same skip and limit (defaults 0 and 100) |
| EntryApi.UpdateEntry | backend/app/api/v1/endpoints/entry.py:50-63 | 422 or 404 without change; otherwise 200 with the patched entry, updated_by being `current_user_id` |
| EntryApi.DeleteEntry | backend/app/api/v1/endpoints/entry.py:66-75 | 404 without change for an absent id; otherwise 204 and the entry is gone |
| TagSchemas.HexRunShape | backend/app/schemas/tag.py:14 | `[0-9A-Fa-f]{n}$` matches exactly the strings of n hex digits |
| TagSchemas.ColorPatternShape | backend/app/schemas/tag.py:14 | a colour matches iff it is '#' and six hex digits, seven characters in all |
| TagSchemas.ColorLengthBoundImplied | backend/app/schemas/tag.py:14 | the max_length=7 bound rejects nothing the pattern accepts |
| TagSchemas.TagFieldViolations | backend/app/schemas/tag.py:9-14 | no violation iff name ≤ 100, category ≤ 100, description ≤ 500 characters and a present colour is valid |
| TagSchemas.TagCreateViolations | backend/app/schemas/tag.py:17-19 | creation uses the TagBase bounds |
| TagSchemas.TagUpdateViolations | backend/app/schemas/tag.py:22-27 | every field optional; present ones obey the creation bounds |
| TagSchemas.EmptyNameAccepted | backend/app/schemas/tag.py:11 | the empty name passes validation |
| TagCrud.ByNameIsTotalPreorder | backend/app/crud/tag.py:26 | `ORDER BY name` is a total preorder on stored ids |
| TagCrud.WithUpdateNeverClears | backend/app/crud/tag.py:53-61 | each of name, category, description and colour is the payload's value when it is non-null and the stored value otherwise, so no field is cleared; id and created_at are kept; the null payload changes nothing |
| TagCrud.TagStore.Get | backend/app/crud/tag.py:12-15 | the tag with that id or None, nothing changed |
| TagCrud.TagStore.GetByName | backend/app/crud/tag.py:18-21 | a stored tag with exactly that name, None iff no tag has it |
| TagCrud.TagStore.ListAll | backend/app/crud/tag.py:24-27 | the window of a by-name arrangement: at most limit stored tags in name order |
| TagCrud.TagStore.Create | backend/app/crud/tag.py:30-43 | one fresh tag carrying exactly the payload's fields; other tags unchanged |
| TagCrud.TagStore.Update | backend/app/crud/tag.py:46-66 | None and no change for an absent id; otherwise only that tag changes, as `WithUpdate` says |
| TagCrud.TagStore.Delete | backend/app/crud/tag.py:69-79 | true iff the id was stored; exactly that tag is removed |
| TagApi.CreateTag | backend/app/api/v1/endpoints/tag.py:17-33 | 422 and no change for an invalid body; 400 with the duplicate message and no change for a taken name; else 201 with a fresh tag carrying the payload's name, category, description and colour and created_at now, added under its new id; unique names stay unique |
| TagApi.GetTag | backend/app/api/v1/endpoints/tag.py:36-51 | 200 with the tag or 404 "Tag not found" |
| TagApi.GetAllTags | backend/app/api/v1/endpoints/tag.py:54-63 | 200 with the by-name page for the same skip and limit |
| TagApi.UpdateTag | backend/app/api/v1/endpoints/tag.py:66-82 | 422 or 404 without change; otherwise 200 with the updated tag |
| TagApi.DeleteTag | backend/app/api/v1/endpoints/tag.py:85-100 | 404 without change for an absent id, else 204 and the tag is gone |
| TagApi.UpdateCanDuplicateName | backend/app/api/v1/endpoints/tag.py:66-82 | renaming through update can give two tags one name: update does not keep names unique |
| Stats.CountSeverity | backend/app/api/v1/endpoints/stats.py:41-54 | a per-severity count never exceeds the number of entries |
| Stats.CountWorkflow | backend/app/api/v1/endpoints/stats.py:56-63 | a per-state count never exceeds the number of entries |
| Stats.CountStatus | backend/app/api/v1/endpoints/stats.py:29-39 | a per-status count never exceeds the number of entries |
| Stats.Usage | backend/app/api/v1/endpoints/stats.py:76-78 | a tag's link count never exceeds the number of links |
| Stats.CountSince | backend/app/api/v1/endpoints/stats.py:92-98 | the 30-day count never exceeds the number of entries |
| Stats.SeverityPartition | backend/app/api/v1/endpoints/stats.py:47-54 | the five severity counts add up to the number of entries |
| Stats.WorkflowPartition | backend/app/api/v1/endpoints/stats.py:56-63 | the five workflow-state counts add up to the number of entries |
| Stats.StatusPartition | backend/app/api/v1/endpoints/stats.py:65-72 | the active and archived counts add up to the number of entries |
| Stats.SumOverNames | backend/app/api/v1/endpoints/stats.py:47-72 | a map holding each member's count under its value sums, over the values, to the members' total |
| Stats.Distribution | backend/app/api/v1/endpoints/stats.py:48-54 | the shared `for member in Enum` loop: exactly the members' values as keys, each member's count under its value, distinct values never overwriting one another |
| Stats.SeverityNames | backend/app/api/v1/endpoints/stats.py:49-54 | the severity values, in enum order, are the distribution's keys and are pairwise distinct |
| Stats.WorkflowNames | backend/app/api/v1/endpoints/stats.py:58-63 | the workflow-state values are the distribution's keys and are pairwise distinct |
| Stats.StatusNames | backend/app/api/v1/endpoints/stats.py:67-72 | the status values are the distribution's keys and are pairwise distinct |
| Stats.SeverityTotal | backend/app/api/v1/endpoints/stats.py:47-54 | the severity counts add up over the enum to the number of entries |
| Stats.WorkflowTotal | backend/app/api/v1/endpoints/stats.py:56-63 | the workflow-state counts add up over the enum to the number of entries |
| Stats.StatusTotal | backend/app/api/v1/endpoints/stats.py:65-72 | the status counts add up over the enum to the number of entries |
| Stats.SeverityDistribution | backend/app/api/v1/endpoints/stats.py:47-54 | one key per severity value, each holding that severity's count, summing to the number of entries |
| Stats.WorkflowDistribution | backend/app/api/v1/endpoints/stats.py:56-63 | one key per workflow-state value, each holding its count, summing to the number of entries |
| Stats.StatusDistribution | backend/app/api/v1/endpoints/stats.py:65-72 | one key per status value, each holding its count, summing to the number of entries |
| Stats.ArrangedTagsAreUsed | backend/app/api/v1/endpoints/stats.py:76-78 | the inner join keeps only stored tags with at least one link |
| Stats.TopRowsDescend | backend/app/api/v1/endpoints/stats.py:79-80 | the limited rows are ordered by descending link count |
| Stats.TopRowsDominate | backend/app/api/v1/endpoints/stats.py:79-80 | a used tag that LIMIT 10 drops has no more links than any listed tag |
| Stats.ShortTopRowsComplete | backend/app/api/v1/endpoints/stats.py:80 | fewer than ten rows means every used tag is listed |
| Stats.TopTags | backend/app/api/v1/endpoints/stats.py:74-90 | at most ten stored tags with at least one link, each with its link count, counts non-increasing, no omitted tag used more than a listed one, and every used tag when fewer than ten |
| Stats.GetStats | backend/app/api/v1/endpoints/stats.py:18-110 | total, active, archived, critical and recent agree with their counts and buckets; every distribution covers its enum and sums to the total; the store is only read |
| Stats.ArchivedCountDropsOnRemoval | backend/app/api/v1/endpoints/stats.py:36-39 | removing one archived entry lowers archived_entries by one |
| ApiMapping.OrElse | frontend/src/services/api.ts:66-69 | `a \|\| b` keeps a present non-empty string, else gives the fallback; the result is empty only when the value is missing or empty and the fallback is empty too |
| ApiMapping.DescriptionsOfKind | frontend/src/services/api.ts:68-69 | every description comes from a solution of that type and every such solution's description is present; empty exactly when no solution has that type |
| ApiMapping.DescriptionsOfKindAppend | frontend/src/services/api.ts:68-69 | filter-and-map of a concatenation is the concatenation of the parts' results, so the descriptions keep the solutions' order |
| ApiMapping.DescriptionsOfOne | frontend/src/services/api.ts:68-69 | one solution contributes its description exactly when its type matches |
| ApiMapping.MapBackendToFrontend | frontend/src/services/api.ts:45-77 | id, name and creator carried over; errorCode is the id's first ≤ 8 characters upper-cased; symptom text or the description in its place; root cause, workarounds and resolution never empty; updatedBy falls back to created_by |
| ApiMapping.MapFrontendToBackend | frontend/src/services/api.ts:80-102 | status 'active', title = name, description = symptoms or '', placeholder creator; only high/medium/low and draft/in_review/published are sent, medium and draft when unset |
| ApiMapping.SeverityToFrontendShape | frontend/src/services/api.ts:46-52 | critical/high show as High, low/info as Low, medium and anything else as Medium |
| ApiMapping.StatusToFrontendShape | frontend/src/services/api.ts:54-60 | in_review shows as Pending Review; published/retired/merged as Published; draft and anything else as Draft |
| ApiMapping.FrontendValuesRoundTrip | frontend/src/services/api.ts:81-97 | every screen severity and status comes back unchanged from the backend's spelling |
| ApiMapping.BackendSeverityRoundTrip | frontend/src/services/api.ts:46-85 | a backend severity survives screen-and-back iff it is high, medium or low; critical returns as high |
| ApiMapping.BackendWorkflowRoundTrip | frontend/src/services/api.ts:54-91 | a workflow state survives iff it is draft, in_review or published; retired and merged return as published |
| ApiMapping.FormRoundTrip | frontend/src/services/api.ts:93-101 | what the form sends comes back on screen: name, symptom text, severity, status and root cause as entered |
| ApiMapping.BlankSymptomsRejected | frontend/src/services/api.ts:95 | a form without symptom text sends a description the backend rejects |
| ClientState.Keep | frontend/src/App.tsx:120 | `filter` keeps exactly the elements that pass, never more than it was given |
| ClientState.KeepIsSubsequence | frontend/src/App.tsx:120 | filtering keeps the order of what it keeps |
| ClientState.KeepAppend | frontend/src/App.tsx:120 | filtering a concatenation filters each part in turn, so every copy of a passing element is kept, in place |
| ClientState.KeepEverything | frontend/src/App.tsx:120 | a filter everything passes changes nothing |
| ClientState.KeepCommutes | frontend/src/App.tsx:79 | deleting and searching commute |
| ClientState.FilterShape | frontend/src/App.tsx:119-128 | an entry is shown iff the lower-cased query occurs in its lower-cased error code, name, symptoms or root cause; order kept |
| ClientState.EmptyQueryShowsAll | frontend/src/App.tsx:119-128 | the empty query shows every entry |
| ClientState.SearchIgnoresCase | frontend/src/App.tsx:121 | an upper-cased query finds the same entries |
| ClientState.DeleteShape | frontend/src/App.tsx:79 | after a delete no entry has that id, every other one stays, in order |
| ClientState.ReplaceById | frontend/src/App.tsx:91 | same length; entries with the answer's id become the answer, all others unchanged |
| ClientState.ReplaceThenDelete | frontend/src/App.tsx:91 | replacing an id and then deleting it is deleting it |
| ClientState.DeleteThenSearch | frontend/src/App.tsx:79 | the visible list after a delete is the old visible list without that id |
| ClientState.Client.constructor | frontend/src/App.tsx:24-31 | the client starts with no entries, loading, no error, an empty query and both dialogs closed |
| ClientState.Client.LoadEntries | frontend/src/App.tsx:47-59 | the fetched list replaces the list, or the error message is kept with the list unchanged; loading ends |
| ClientState.Client.SetSearchQuery | frontend/src/App.tsx:179 | the query changes, nothing else |
| ClientState.Client.HandleCreateEntry | frontend/src/App.tsx:65-68 | the form opens empty |
| ClientState.Client.HandleEditEntry | frontend/src/App.tsx:70-73 | the form opens on the entry |
| ClientState.Client.HandleCloseModal | frontend/src/App.tsx:104-107 | the form closes and forgets the entry |
| ClientState.Client.HandleViewEntry | frontend/src/App.tsx:109-112 | the detail view opens on the entry |
| ClientState.Client.HandleCloseDetailModal | frontend/src/App.tsx:114-117 | the detail view closes |
| ClientState.Client.HandleDeleteEntry | frontend/src/App.tsx:75-84 | no call unless confirmed; success drops that id, failure leaves the list and raises the alert |
| ClientState.Client.HandleSaveEntry | frontend/src/App.tsx:86-102 | sends an update of entry.id while editing, otherwise a create; success replaces by the answer's id or appends the answer and closes the form; failure changes nothing but the alert |

## Left out

- Authentication: the `get_current_user` dependency of the tag and stats handlers, and its 401 answer, are not modelled.
- Database sessions, `selectinload`, commit and refresh: each store operation is one atomic step on a map.
- Solutions and reviews: `get_entry` loads them with the entry, but they are not part of the modelled backend aggregate, so `Get`, `ReadEntry` and `Delete` return the entry without them. Solutions appear only as the client record's `solutions`. Reviews appear nowhere.
- `merged_into_id` is carried as data only. No rule reads or sets it.
- Tag links (`entry_tags`): created entries start without tags and no operation adds them. What happens to a tag's links when the tag is deleted is not modelled, because the entry_tags foreign key is not part of this model. The model keeps them, and the dashboard's inner join ignores links to a missing tag.
- EntryCrud.EntryStore.Create: the insert sends only the fields the request set, so omitted workflow_state, status, root_cause, impact_summary and detection_method take the entries table's column defaults. That model file is not part of this model. The model assumes those defaults equal the request schema's: draft, active, and null.
- Server-side timestamps: `now` is a parameter. `updated_at` is set to `now` on update. The model file with the column defaults is not part of this model.
- `toLocaleDateString` dates on the screen records are not modelled.
- The client's network functions are left out. Their results are handler parameters.
- `window.confirm` is a boolean parameter. `alert` is a returned message.
- The client's stale-closure behaviour is not modelled: it matters only when two saves overlap.
- Concurrency: last-writer-wins updates are not modelled. Dashboard counts read one consistent snapshot.
- Negative `skip` or `limit` are not modelled, because the database rejects them. The parameters are `nat`.
- EntrySchemas.EntryUpdateViolations: an explicit null for title, description, severity, workflow_state or status cannot be expressed (the nullability of those columns is not shown). Only root_cause, impact_summary, detection_method and updated_by may be cleared to null.
- EntryCrud.EntryStore.List: the order among entries with equal `created_at` is any order, as in SQL. No tie-break is fixed.
- TagCrud.TagStore.ListAll: names are compared by code point (C collation). A database collation may order them differently.
- TagCrud.TagStore.GetByName: when several tags share a name, the row the database returns first is any one of them.
- Stats.TopTags: ties in usage count may be broken in any order, as in SQL.
- ApiMapping.MapBackendToFrontend: upper-casing is ASCII only.
- ClientState.FilterShape: lower-casing is ASCII only.
- ApiMapping.MapBackendToFrontend: map lookups of inherited JavaScript property names (such as `constructor`) are not modelled. An unknown string gets the default.
- ApiMapping.MapBackendToFrontend: a symptom is represented by its description string. A missing description is not modelled.
- FastAPI's 422 body (the list of errors) is not modelled: a handler answers `Unprocessable` when any constraint fails.

## Findings

| source | as written | input that shows it | evidently intended | confidence | as-written member | corrected member |
|---|---|---|---|---|---|---|
| backend/app/crud/entry.py:59 | `EntrySymptom(**symptom_data.model_dump(), order_index=i)` passes `order_index` twice, because the dump already holds it, so Python raises TypeError | any EntryCreate with one or more symptoms | symptom i is stored with order_index i | not executed | EntryCrud.CreateAsWritten | EntryCrud.EntryStore.Create |
| backend/app/crud/entry.py:64 | reads `entry.tags`, but EntryCreate declares no tags field, so AttributeError is raised | any EntryCreate without symptoms | a new entry starts without tags | not executed | EntryCrud.CreateAsWritten | EntryCrud.EntryStore.Create |

`EntryCrud.CreateAsWrittenAlwaysRaises` proves that these two rows together
make create_entry, as written, fail on every input. The rest of the model
uses the corrected `EntryCrud.EntryStore.Create`.
