/** The entry HTTP handlers (backend/app/api/v1/endpoints/entry.py): each
    validates its body, delegates to the store and maps a missing entry to
    404. The acting user is the `current_user_id` parameter, which the
    handlers default to "test_user". */
module EntryApi {
  import opened Base
  import opened Http
  import opened EntryModel
  import opened EntrySchemas
  import opened EntryCrud

  const DefaultUser: string := "test_user"
  const EntryNotFound: string := "Entry not found"

  /** POST /entries: 201 with the new aggregate, created_by being the
      caller's id and never the body's created_by. */
  method CreateEntry(store: EntryStore, entry: EntryCreate, now: int, currentUserId: string := DefaultUser)
    returns (resp: Response<Entry>)
    requires store.Valid()
    modifies store
    ensures store.Valid()
    ensures !ValidEntryCreate(entry) ==> resp == Unprocessable && store.entries == old(store.entries)
    ensures ValidEntryCreate(entry) ==>
              resp.Created? && resp.body.createdBy == currentUserId &&
              resp.body.id !in old(store.entries) &&
              store.entries == old(store.entries)[resp.body.id := resp.body] &&
              BuiltFrom(resp.body, entry, currentUserId, now)
  {
    if EntryCreateViolations(entry) != [] {
      return Unprocessable;
    }
    var created := store.Create(entry, currentUserId, now);
    resp := Created(created);
  }

  /** GET /entries/{id}: 200 with the stored aggregate or 404. */
  method ReadEntry(store: EntryStore, entryId: Id) returns (resp: Response<Entry>)
    ensures entryId in store.entries ==> resp == Ok(store.entries[entryId])
    ensures entryId !in store.entries ==> resp == NotFound(EntryNotFound)
  {
    var found := store.Get(entryId);
    if found.None? {
      return NotFound(EntryNotFound);
    }
    resp := Ok(found.value);
  }

  /** GET /entries?skip=&limit=: the store's newest-first page, with the
      paging parameters passed through unchanged (defaults 0 and 100). */
  method ReadEntries(store: EntryStore, skip: nat := 0, limit: nat := 100) returns (resp: Response<seq<Entry>>)
    requires store.Valid()
    ensures resp.Ok? && IsNewestFirstPage(resp.body, store.entries, skip, limit)
    ensures |resp.body| <= limit
  {
    var page := store.List(skip, limit);
    resp := Ok(page);
  }

  /** PUT /entries/{id}: 404 and no change for an unknown id, otherwise
      200 with the patched entry, updated_by being the caller's id. */
  method UpdateEntry(store: EntryStore, entryId: Id, entry: EntryUpdate, now: int, currentUserId: string := DefaultUser)
    returns (resp: Response<Entry>)
    requires store.Valid()
    modifies store
    ensures store.Valid()
    ensures !ValidEntryUpdate(entry) ==> resp == Unprocessable && store.entries == old(store.entries)
    ensures ValidEntryUpdate(entry) && entryId !in old(store.entries) ==>
              resp == NotFound(EntryNotFound) && store.entries == old(store.entries)
    ensures ValidEntryUpdate(entry) && entryId in old(store.entries) ==>
              resp == Ok(Patched(old(store.entries)[entryId], entry, currentUserId, now)) &&
              resp.body.updatedBy == Some(currentUserId) &&
              store.entries == old(store.entries)[entryId := resp.body]
  {
    if EntryUpdateViolations(entry) != [] {
      return Unprocessable;
    }
    var updated := store.Update(entryId, entry, currentUserId, now);
    if updated.None? {
      return NotFound(EntryNotFound);
    }
    resp := Ok(updated.value);
  }

  /** DELETE /entries/{id}: 404 for an unknown id, otherwise 204 and the
      entry with its children is gone. */
  method DeleteEntry(store: EntryStore, entryId: Id) returns (resp: Response<Entry>)
    requires store.Valid()
    modifies store
    ensures store.Valid()
    ensures entryId !in old(store.entries) ==> resp == NotFound(EntryNotFound) && store.entries == old(store.entries)
    ensures entryId in old(store.entries) ==> resp == NoContent && store.entries == old(store.entries) - {entryId}
    ensures entryId !in store.entries
  {
    var deleted := store.Delete(entryId);
    if deleted.None? {
      return NotFound(EntryNotFound);
    }
    resp := NoContent;
  }

  /** A client of the handlers: create an entry as user A, archive it as
      user B, delete it, and read it back. */
  method DiskFullWalkthrough(now: int) {
    var store := new EntryStore();
    var symptom := SymptomIn("alert fired", 7, None);
    var entry := EntryCreate("Disk full", "volume at 100%", Critical, None, None, None,
                             None, None, "someone", Some([symptom]), None);
    var created := CreateEntry(store, entry, now, "A");
    assert created.Created?;
    var e := created.body;
    assert e.workflowState == Draft && e.status == Active && e.createdBy == "A";
    assert e.symptoms[0].orderIndex == 0;
    var archive := EmptyUpdate.(status := Given(Archived));
    var updated := UpdateEntry(store, e.id, archive, now + 1, "B");
    assert updated.Ok?;
    assert updated.body.status == Archived && updated.body.updatedBy == Some("B");
    assert updated.body.severity == Critical && updated.body.title == "Disk full";
    var deleted := DeleteEntry(store, e.id);
    assert deleted == NoContent;
    var read := ReadEntry(store, e.id);
    assert read == NotFound(EntryNotFound);
  }
}
