/** The tag CRUD layer (backend/app/crud/tag.py): a keyed store of
    reusable labels. The store itself does not enforce unique names; only
    the create handler checks for an existing name. */
module TagCrud {
  import opened Base
  import opened TagSchemas
  import Text
  import Query

  datatype Tag = Tag(
    id: Id,
    name: string,
    category: Option<string>,
    description: Option<string>,
    color: Option<string>,
    createdAt: int)

  /** No two stored tags share a name. */
  predicate NamesUnique(m: map<Id, Tag>) {
    forall a, b :: a in m && b in m && m[a].name == m[b].name ==> a == b
  }

  predicate NameTaken(m: map<Id, Tag>, name: string) {
    exists k :: k in m && m[k].name == name
  }

  function NameOf(m: map<Id, Tag>, k: Id): string {
    if k in m then m[k].name else ""
  }

  /** `ORDER BY name` as a "may come before" relation on ids. */
  function ByName(m: map<Id, Tag>): (Id, Id) -> bool {
    (a: Id, b: Id) => Text.LexLe(NameOf(m, a), NameOf(m, b))
  }

  lemma ByNameIsTotalPreorder(m: map<Id, Tag>)
    ensures Query.TotalPreorder(ByName(m))
  {
    forall a: Id, b: Id ensures ByName(m)(a, b) || ByName(m)(b, a) {
      Text.LexLeTotal(NameOf(m, a), NameOf(m, b));
    }
    forall a: Id, b: Id, c: Id | ByName(m)(a, b) && ByName(m)(b, c) ensures ByName(m)(a, c) {
      Text.LexLeTrans(NameOf(m, a), NameOf(m, b), NameOf(m, c));
    }
  }

  function TagsAt(m: map<Id, Tag>, ids: seq<Id>): seq<Tag>
    requires forall k :: k in ids ==> k in m
  {
    seq(|ids|, i requires 0 <= i < |ids| => m[ids[i]])
  }

  /** page is what `ORDER BY name OFFSET skip LIMIT limit` may return. */
  ghost predicate IsByNamePage(page: seq<Tag>, m: map<Id, Tag>, skip: nat, limit: nat) {
    exists order :: Query.Arranges(order, m.Keys, ByName(m)) &&
                    page == TagsAt(m, Query.Window(order, skip, limit))
  }

  /** update_tag's effect on one tag: a field changes only when the payload
      carries a non-null value for it, so no field can be cleared. */
  function WithUpdate(t: Tag, u: TagUpdate): Tag {
    t.(name := u.name.GetOr(t.name),
       category := if u.category.Some? then u.category else t.category,
       description := if u.description.Some? then u.description else t.description,
       color := if u.color.Some? then u.color else t.color)
  }

  /** A present field of the payload wins, an absent one keeps the stored
      value; in particular a stored category, description or colour is
      never cleared. */
  lemma WithUpdateNeverClears(t: Tag, u: TagUpdate)
    ensures var r := WithUpdate(t, u);
      r.id == t.id && r.createdAt == t.createdAt &&
      r.name == (if u.name.Some? then u.name.value else t.name) &&
      r.category == (if u.category.Some? then u.category else t.category) &&
      r.description == (if u.description.Some? then u.description else t.description) &&
      r.color == (if u.color.Some? then u.color else t.color) &&
      (t.category.Some? ==> r.category.Some?) &&
      (t.description.Some? ==> r.description.Some?) &&
      (t.color.Some? ==> r.color.Some?) &&
      (u == TagUpdate(None, None, None, None) ==> r == t)
  {
  }

  class TagStore {
    var tags: map<Id, Tag>
    /** Stands for the database's id generator. */
    var nextId: Id

    ghost predicate Valid()
      reads this
    {
      forall k :: k in tags ==> k < nextId && tags[k].id == k
    }

    constructor ()
      ensures Valid() && tags == map[]
    {
      tags := map[];
      nextId := 0;
    }

    /** get_tag. */
    method Get(id: Id) returns (r: Option<Tag>)
      ensures id in tags ==> r == Some(tags[id])
      ensures id !in tags ==> r == None
    {
      if id in tags {
        r := Some(tags[id]);
      } else {
        r := None;
      }
    }

    /** get_tag_by_name: some stored tag with exactly that name (the first
        row the database returns), or None when no tag has it. */
    method GetByName(name: string) returns (r: Option<Tag>)
      requires Valid()
      ensures r.Some? ==> r.value.id in tags && tags[r.value.id] == r.value && r.value.name == name
      ensures r.None? <==> !NameTaken(tags, name)
    {
      if k :| k in tags && tags[k].name == name {
        r := Some(tags[k]);
      } else {
        r := None;
      }
    }

    /** get_all_tags: by name ascending, then OFFSET skip LIMIT limit. */
    method ListAll(skip: nat, limit: nat) returns (page: seq<Tag>)
      requires Valid()
      ensures IsByNamePage(page, tags, skip, limit)
      ensures |page| <= limit
      ensures forall i, j :: 0 <= i < j < |page| ==> Text.LexLe(page[i].name, page[j].name)
      ensures forall t :: t in page ==> t.id in tags && tags[t.id] == t
    {
      ByNameIsTotalPreorder(tags);
      var order := Query.ArrangeKeys(tags.Keys, ByName(tags));
      var ids := Query.Window(order, skip, limit);
      page := TagsAt(tags, ids);
      forall i, j | 0 <= i < j < |page| ensures Text.LexLe(page[i].name, page[j].name) {
        assert ByName(tags)(order[skip + i], order[skip + j]);
      }
    }

    /** create_tag: one new tag carrying exactly the payload's fields;
        existing tags are unchanged. */
    method Create(data: TagCreate, now: int) returns (t: Tag)
      requires Valid()
      modifies this
      ensures Valid()
      ensures t.id !in old(tags) && tags == old(tags)[t.id := t]
      ensures t.name == data.name && t.category == data.category &&
              t.description == data.description && t.color == data.color && t.createdAt == now
    {
      t := Tag(nextId, data.name, data.category, data.description, data.color, now);
      tags := tags[t.id := t];
      nextId := nextId + 1;
    }

    /** update_tag: None and no change for an unknown id; otherwise each
        non-null payload field is assigned in turn. */
    method Update(id: Id, data: TagUpdate) returns (r: Option<Tag>)
      requires Valid()
      modifies this
      ensures Valid()
      ensures id !in old(tags) ==> r == None && tags == old(tags)
      ensures id in old(tags) ==>
                r == Some(WithUpdate(old(tags)[id], data)) && tags == old(tags)[id := r.value]
    {
      var found := Get(id);
      if found.None? {
        return None;
      }
      var t := found.value;
      if data.name.Some? {
        t := t.(name := data.name.value);
      }
      if data.category.Some? {
        t := t.(category := data.category);
      }
      if data.description.Some? {
        t := t.(description := data.description);
      }
      if data.color.Some? {
        t := t.(color := data.color);
      }
      tags := tags[id := t];
      r := Some(t);
    }

    /** delete_tag: false and no change for an unknown id; otherwise true
        and only that tag is removed. What the database does with the
        entry-tag links that point at it is not modelled: the entries
        keep them. */
    method Delete(id: Id) returns (deleted: bool)
      requires Valid()
      modifies this
      ensures Valid()
      ensures deleted == (id in old(tags))
      ensures tags == old(tags) - {id}
    {
      var found := Get(id);
      if found.None? {
        return false;
      }
      tags := tags - {id};
      deleted := true;
    }
  }
}
