/** The tag HTTP handlers (backend/app/api/v1/endpoints/tag.py): a
    duplicate-name guard on creation and 404/204 mapping elsewhere. Update
    performs no name check, so it can introduce a duplicate name. */
module TagApi {
  import opened Base
  import opened Http
  import opened TagSchemas
  import opened TagCrud

  const TagNotFound: string := "Tag not found"

  function DuplicateDetail(name: string): string {
    "Tag with name '" + name + "' already exists"
  }

  /** POST /tags: 400 and no change when the name is taken, otherwise 201
      with the new tag; names unique before stay unique after. */
  method CreateTag(store: TagStore, tagData: TagCreate, now: int) returns (resp: Response<Tag>)
    requires store.Valid()
    modifies store
    ensures store.Valid()
    ensures !ValidTagCreate(tagData) ==> resp == Unprocessable && store.tags == old(store.tags)
    ensures ValidTagCreate(tagData) && NameTaken(old(store.tags), tagData.name) ==>
              resp == BadRequest(DuplicateDetail(tagData.name)) && store.tags == old(store.tags)
    ensures ValidTagCreate(tagData) && !NameTaken(old(store.tags), tagData.name) ==>
              resp.Created? &&
              resp.body == Tag(resp.body.id, tagData.name, tagData.category,
                               tagData.description, tagData.color, now) &&
              resp.body.id !in old(store.tags) &&
              store.tags == old(store.tags)[resp.body.id := resp.body]
    ensures NamesUnique(old(store.tags)) ==> NamesUnique(store.tags)
  {
    if TagCreateViolations(tagData) != [] {
      return Unprocessable;
    }
    var existing := store.GetByName(tagData.name);
    if existing.Some? {
      return BadRequest(DuplicateDetail(tagData.name));
    }
    var tag := store.Create(tagData, now);
    resp := Created(tag);
  }

  /** GET /tags/{id}. */
  method GetTag(store: TagStore, tagId: Id) returns (resp: Response<Tag>)
    ensures tagId in store.tags ==> resp == Ok(store.tags[tagId])
    ensures tagId !in store.tags ==> resp == NotFound(TagNotFound)
  {
    var tag := store.Get(tagId);
    if tag.None? {
      return NotFound(TagNotFound);
    }
    resp := Ok(tag.value);
  }

  /** GET /tags?skip=&limit=: the store's by-name page (defaults 0, 100). */
  method GetAllTags(store: TagStore, skip: nat := 0, limit: nat := 100) returns (resp: Response<seq<Tag>>)
    requires store.Valid()
    ensures resp.Ok? && IsByNamePage(resp.body, store.tags, skip, limit)
  {
    var tags := store.ListAll(skip, limit);
    resp := Ok(tags);
  }

  /** PUT /tags/{id}: 404 and no change for an unknown id, else 200 with
      the updated tag. */
  method UpdateTag(store: TagStore, tagId: Id, tagData: TagUpdate) returns (resp: Response<Tag>)
    requires store.Valid()
    modifies store
    ensures store.Valid()
    ensures !ValidTagUpdate(tagData) ==> resp == Unprocessable && store.tags == old(store.tags)
    ensures ValidTagUpdate(tagData) && tagId !in old(store.tags) ==>
              resp == NotFound(TagNotFound) && store.tags == old(store.tags)
    ensures ValidTagUpdate(tagData) && tagId in old(store.tags) ==>
              resp == Ok(WithUpdate(old(store.tags)[tagId], tagData)) &&
              store.tags == old(store.tags)[tagId := resp.body]
  {
    if TagUpdateViolations(tagData) != [] {
      return Unprocessable;
    }
    var tag := store.Update(tagId, tagData);
    if tag.None? {
      return NotFound(TagNotFound);
    }
    resp := Ok(tag.value);
  }

  /** DELETE /tags/{id}: 404 for an unknown id, else 204 and the tag is gone. */
  method DeleteTag(store: TagStore, tagId: Id) returns (resp: Response<Tag>)
    requires store.Valid()
    modifies store
    ensures store.Valid()
    ensures tagId !in old(store.tags) ==> resp == NotFound(TagNotFound) && store.tags == old(store.tags)
    ensures tagId in old(store.tags) ==> resp == NoContent && store.tags == old(store.tags) - {tagId}
  {
    var success := store.Delete(tagId);
    if !success {
      return NotFound(TagNotFound);
    }
    resp := NoContent;
  }

  /** Renaming a tag to a name another tag already has goes through: the
      update path does not keep names unique. */
  lemma UpdateCanDuplicateName()
    ensures var m := map[0 := Tag(0, "db", None, None, None, 0), 1 := Tag(1, "net", None, None, None, 0)];
      NamesUnique(m) &&
      ValidTagUpdate(TagUpdate(Some("db"), None, None, None)) &&
      !NamesUnique(m[1 := WithUpdate(m[1], TagUpdate(Some("db"), None, None, None))])
  {
    var m := map[0 := Tag(0, "db", None, None, None, 0), 1 := Tag(1, "net", None, None, None, 0)];
    var m' := m[1 := WithUpdate(m[1], TagUpdate(Some("db"), None, None, None))];
    assert m'[0].name == m'[1].name;
  }
}
