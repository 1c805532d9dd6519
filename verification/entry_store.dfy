/** The entry CRUD layer (backend/app/crud/entry.py): one in-memory store
    of entry aggregates. Each operation is one atomic step on the map; the
    session's add/commit/refresh plumbing is not modelled. */
module EntryCrud {
  import opened Base
  import opened EntryModel
  import opened EntrySchemas
  import Query

  // ------------------------------------------------------------- ordering

  function CreatedAt(m: map<Id, Entry>, k: Id): int {
    if k in m then m[k].createdAt else 0
  }

  /** `ORDER BY created_at DESC` as a "may come before" relation on ids. */
  function NewestFirst(m: map<Id, Entry>): (Id, Id) -> bool {
    (a: Id, b: Id) => CreatedAt(m, a) >= CreatedAt(m, b)
  }

  lemma NewestFirstIsTotalPreorder(m: map<Id, Entry>)
    ensures Query.TotalPreorder(NewestFirst(m))
  {
  }

  /** The stored rows for a list of ids. */
  function RowsOf(m: map<Id, Entry>, ids: seq<Id>): (rows: seq<Entry>)
    requires forall k :: k in ids ==> k in m
  {
    seq(|ids|, i requires 0 <= i < |ids| => m[ids[i]])
  }

  /** The rows of ids sorted newest first are newest first. */
  lemma RowsNewestFirst(m: map<Id, Entry>, ids: seq<Id>)
    requires forall k :: k in ids ==> k in m
    requires Query.SortedBy(ids, NewestFirst(m))
    ensures forall i, j :: 0 <= i < j < |ids| ==> RowsOf(m, ids)[i].createdAt >= RowsOf(m, ids)[j].createdAt
  {
    forall i, j | 0 <= i < j < |ids| ensures RowsOf(m, ids)[i].createdAt >= RowsOf(m, ids)[j].createdAt {
      assert NewestFirst(m)(ids[i], ids[j]);
    }
  }

  /** page is what `ORDER BY created_at DESC OFFSET skip LIMIT limit`
      may return for the store m (rows with equal created_at in any order). */
  ghost predicate IsNewestFirstPage(page: seq<Entry>, m: map<Id, Entry>, skip: nat, limit: nat) {
    exists order :: Query.Arranges(order, m.Keys, NewestFirst(m)) &&
                    page == RowsOf(m, Query.Window(order, skip, limit))
  }

  // ----------------------------------------------------- partial update

  /** One `setattr(db_entry, key, value)` of the update loop, one
      constructor per EntryUpdate field. */
  datatype FieldAssignment =
    | SetTitle(title: string)
    | SetDescription(description: string)
    | SetSeverity(severity: SeverityLevel)
    | SetWorkflowState(workflowState: WorkflowState)
    | SetStatus(status: EntryStatus)
    | SetUpdatedBy(updatedBy: Option<string>)
    | SetRootCause(rootCause: Option<string>)
    | SetImpactSummary(impactSummary: Option<string>)
    | SetDetectionMethod(detectionMethod: Option<string>)

  /** `model_dump(exclude_unset=True).items()`: the explicitly given
      fields, explicit nulls included, in declaration order. */
  function SetFields(u: EntryUpdate): seq<FieldAssignment> {
    DumpTitle(u) + DumpDescription(u) + DumpSeverity(u) + DumpWorkflowState(u) + DumpStatus(u) +
    DumpUpdatedBy(u) + DumpRootCause(u) + DumpImpactSummary(u) + DumpDetectionMethod(u)
  }

  // The part of the dump contributed by each field: one item if given.
  function DumpTitle(u: EntryUpdate): seq<FieldAssignment> { if u.title.Given? then [SetTitle(u.title.value)] else [] }
  function DumpDescription(u: EntryUpdate): seq<FieldAssignment> { if u.description.Given? then [SetDescription(u.description.value)] else [] }
  function DumpSeverity(u: EntryUpdate): seq<FieldAssignment> { if u.severity.Given? then [SetSeverity(u.severity.value)] else [] }
  function DumpWorkflowState(u: EntryUpdate): seq<FieldAssignment> { if u.workflowState.Given? then [SetWorkflowState(u.workflowState.value)] else [] }
  function DumpStatus(u: EntryUpdate): seq<FieldAssignment> { if u.status.Given? then [SetStatus(u.status.value)] else [] }
  function DumpUpdatedBy(u: EntryUpdate): seq<FieldAssignment> { if u.updatedBy.Given? then [SetUpdatedBy(u.updatedBy.value)] else [] }
  function DumpRootCause(u: EntryUpdate): seq<FieldAssignment> { if u.rootCause.Given? then [SetRootCause(u.rootCause.value)] else [] }
  function DumpImpactSummary(u: EntryUpdate): seq<FieldAssignment> { if u.impactSummary.Given? then [SetImpactSummary(u.impactSummary.value)] else [] }
  function DumpDetectionMethod(u: EntryUpdate): seq<FieldAssignment> { if u.detectionMethod.Given? then [SetDetectionMethod(u.detectionMethod.value)] else [] }

  function Assign(e: Entry, f: FieldAssignment): Entry {
    match f
    case SetTitle(t) => e.(title := t)
    case SetDescription(d) => e.(description := d)
    case SetSeverity(s) => e.(severity := s)
    case SetWorkflowState(w) => e.(workflowState := w)
    case SetStatus(s) => e.(status := s)
    case SetUpdatedBy(b) => e.(updatedBy := b)
    case SetRootCause(c) => e.(rootCause := c)
    case SetImpactSummary(i) => e.(impactSummary := i)
    case SetDetectionMethod(d) => e.(detectionMethod := d)
  }

  /** The assignments applied one after another, first to last. */
  function AssignAll(e: Entry, fs: seq<FieldAssignment>): Entry
    decreases |fs|
  {
    if fs == [] then e else Assign(AssignAll(e, fs[..|fs| - 1]), fs[|fs| - 1])
  }

  /** The update written field by field: every given field takes the
      payload's value, every other field keeps its value, and the audit
      columns are stamped with the actor and the time. */
  function Patched(e: Entry, u: EntryUpdate, actor: string, now: int): Entry {
    e.(title := u.title.Or(e.title),
       description := u.description.Or(e.description),
       severity := u.severity.Or(e.severity),
       workflowState := u.workflowState.Or(e.workflowState),
       status := u.status.Or(e.status),
       rootCause := u.rootCause.Or(e.rootCause),
       impactSummary := u.impactSummary.Or(e.impactSummary),
       detectionMethod := u.detectionMethod.Or(e.detectionMethod),
       updatedBy := Some(actor),
       updatedAt := now)
  }

  lemma {:induction false} AssignAllAppend(e: Entry, a: seq<FieldAssignment>, b: seq<FieldAssignment>)
    ensures AssignAll(e, a + b) == AssignAll(AssignAll(e, a), b)
    decreases |b|
  {
    if b == [] {
      assert a + b == a;
    } else {
      assert (a + b)[..|a + b| - 1] == a + b[..|b| - 1];
      AssignAllAppend(e, a, b[..|b| - 1]);
    }
  }

  /** Appending at most one assignment to a prefix whose effect is known. */
  lemma AssignStep(e: Entry, acc: seq<FieldAssignment>, extra: seq<FieldAssignment>, next: Entry)
    requires (extra == [] && next == AssignAll(e, acc)) || (|extra| == 1 && next == Assign(AssignAll(e, acc), extra[0]))
    ensures AssignAll(e, acc + extra) == next
  {
    AssignAllAppend(e, acc, extra);
    if extra != [] {
      assert extra[..0] == [];
    }
  }

  // One lemma per field: after the assignments acc, that field's part of
  // the dump sets the field when it was given and changes nothing else.
  lemma StepTitle(e: Entry, u: EntryUpdate, acc: seq<FieldAssignment>)
    ensures var m := AssignAll(e, acc); AssignAll(e, acc + DumpTitle(u)) == m.(title := u.title.Or(m.title))
  {
    var m := AssignAll(e, acc);
    AssignStep(e, acc, DumpTitle(u), m.(title := u.title.Or(m.title)));
  }

  lemma StepDescription(e: Entry, u: EntryUpdate, acc: seq<FieldAssignment>)
    ensures var m := AssignAll(e, acc); AssignAll(e, acc + DumpDescription(u)) == m.(description := u.description.Or(m.description))
  {
    var m := AssignAll(e, acc);
    AssignStep(e, acc, DumpDescription(u), m.(description := u.description.Or(m.description)));
  }

  lemma StepSeverity(e: Entry, u: EntryUpdate, acc: seq<FieldAssignment>)
    ensures var m := AssignAll(e, acc); AssignAll(e, acc + DumpSeverity(u)) == m.(severity := u.severity.Or(m.severity))
  {
    var m := AssignAll(e, acc);
    AssignStep(e, acc, DumpSeverity(u), m.(severity := u.severity.Or(m.severity)));
  }

  lemma StepWorkflowState(e: Entry, u: EntryUpdate, acc: seq<FieldAssignment>)
    ensures var m := AssignAll(e, acc); AssignAll(e, acc + DumpWorkflowState(u)) == m.(workflowState := u.workflowState.Or(m.workflowState))
  {
    var m := AssignAll(e, acc);
    AssignStep(e, acc, DumpWorkflowState(u), m.(workflowState := u.workflowState.Or(m.workflowState)));
  }

  lemma StepStatus(e: Entry, u: EntryUpdate, acc: seq<FieldAssignment>)
    ensures var m := AssignAll(e, acc); AssignAll(e, acc + DumpStatus(u)) == m.(status := u.status.Or(m.status))
  {
    var m := AssignAll(e, acc);
    AssignStep(e, acc, DumpStatus(u), m.(status := u.status.Or(m.status)));
  }

  lemma StepUpdatedBy(e: Entry, u: EntryUpdate, acc: seq<FieldAssignment>)
    ensures var m := AssignAll(e, acc); AssignAll(e, acc + DumpUpdatedBy(u)) == m.(updatedBy := u.updatedBy.Or(m.updatedBy))
  {
    var m := AssignAll(e, acc);
    AssignStep(e, acc, DumpUpdatedBy(u), m.(updatedBy := u.updatedBy.Or(m.updatedBy)));
  }

  lemma StepRootCause(e: Entry, u: EntryUpdate, acc: seq<FieldAssignment>)
    ensures var m := AssignAll(e, acc); AssignAll(e, acc + DumpRootCause(u)) == m.(rootCause := u.rootCause.Or(m.rootCause))
  {
    var m := AssignAll(e, acc);
    AssignStep(e, acc, DumpRootCause(u), m.(rootCause := u.rootCause.Or(m.rootCause)));
  }

  lemma StepImpactSummary(e: Entry, u: EntryUpdate, acc: seq<FieldAssignment>)
    ensures var m := AssignAll(e, acc); AssignAll(e, acc + DumpImpactSummary(u)) == m.(impactSummary := u.impactSummary.Or(m.impactSummary))
  {
    var m := AssignAll(e, acc);
    AssignStep(e, acc, DumpImpactSummary(u), m.(impactSummary := u.impactSummary.Or(m.impactSummary)));
  }

  lemma StepDetectionMethod(e: Entry, u: EntryUpdate, acc: seq<FieldAssignment>)
    ensures var m := AssignAll(e, acc); AssignAll(e, acc + DumpDetectionMethod(u)) == m.(detectionMethod := u.detectionMethod.Or(m.detectionMethod))
  {
    var m := AssignAll(e, acc);
    AssignStep(e, acc, DumpDetectionMethod(u), m.(detectionMethod := u.detectionMethod.Or(m.detectionMethod)));
  }

  /** Applying the setattr loop to the given fields and then stamping
      updated_by/updated_at is exactly the field-by-field update: the
      reflective loop and the explicit setter mapping agree. */
  lemma {:induction false} AssignAllIsPatched(e: Entry, u: EntryUpdate, actor: string, now: int)
    ensures AssignAll(e, SetFields(u)).(updatedBy := Some(actor), updatedAt := now) == Patched(e, u, actor, now)
  {
    var p1 := DumpTitle(u);
    var p2 := p1 + DumpDescription(u);
    var p3 := p2 + DumpSeverity(u);
    var p4 := p3 + DumpWorkflowState(u);
    var p5 := p4 + DumpStatus(u);
    var p6 := p5 + DumpUpdatedBy(u);
    var p7 := p6 + DumpRootCause(u);
    var p8 := p7 + DumpImpactSummary(u);
    StepTitle(e, u, []);
    assert [] + p1 == p1;
    StepDescription(e, u, p1);
    StepSeverity(e, u, p2);
    StepWorkflowState(e, u, p3);
    StepStatus(e, u, p4);
    StepUpdatedBy(e, u, p5);
    StepRootCause(e, u, p6);
    StepImpactSummary(e, u, p7);
    StepDetectionMethod(e, u, p8);
  }

  /** An update keeps the entry's id and children, so the entry still
      owns its children. */
  lemma PatchedKeepsOwnership(e: Entry, u: EntryUpdate, actor: string, now: int)
    requires OwnsChildren(e)
    ensures Patched(e, u, actor, now).id == e.id && OwnsChildren(Patched(e, u, actor, now))
  {
  }

  /** What an update changes: the given fields take the payload's values,
      explicit nulls included; nothing else moves except the audit stamp,
      and updated_by is the actor even when the payload names another. */
  lemma PatchedChangesOnlyGivenFields(e: Entry, u: EntryUpdate, actor: string, now: int)
    ensures var r := Patched(e, u, actor, now);
      (u.title.Given? ==> r.title == u.title.value) && (u.title.Unset? ==> r.title == e.title) &&
      (u.description.Given? ==> r.description == u.description.value) &&
      (u.description.Unset? ==> r.description == e.description) &&
      (u.severity.Given? ==> r.severity == u.severity.value) && (u.severity.Unset? ==> r.severity == e.severity) &&
      (u.workflowState.Given? ==> r.workflowState == u.workflowState.value) &&
      (u.workflowState.Unset? ==> r.workflowState == e.workflowState) &&
      (u.status.Given? ==> r.status == u.status.value) && (u.status.Unset? ==> r.status == e.status) &&
      (u.rootCause.Given? ==> r.rootCause == u.rootCause.value) &&
      (u.rootCause.Unset? ==> r.rootCause == e.rootCause) &&
      (u.impactSummary.Given? ==> r.impactSummary == u.impactSummary.value) &&
      (u.impactSummary.Unset? ==> r.impactSummary == e.impactSummary) &&
      (u.detectionMethod.Given? ==> r.detectionMethod == u.detectionMethod.value) &&
      (u.detectionMethod.Unset? ==> r.detectionMethod == e.detectionMethod) &&
      r.updatedBy == Some(actor) && r.updatedAt == now &&
      r.id == e.id && r.createdBy == e.createdBy && r.createdAt == e.createdAt &&
      r.mergedIntoId == e.mergedIntoId && r.publishedAt == e.publishedAt &&
      r.symptoms == e.symptoms && r.incidents == e.incidents && r.tags == e.tags
  {
  }

  /** The payload `{}` only stamps updated_by and updated_at. */
  lemma EmptyUpdateOnlyStamps(e: Entry, actor: string, now: int)
    ensures Patched(e, EmptyUpdate, actor, now) == e.(updatedBy := Some(actor), updatedAt := now)
  {
  }

  // ------------------------------------------------------------ creation

  /** e is the aggregate that creating p on behalf of actor at time now
      builds: the scalar fields come from p (an omitted workflow state or
      status takes the default, taken to be the schema's draft and active),
      created_by is the actor (p.createdBy is ignored), symptom i is the
      i-th input symptom with order_index i, incidents keep the input
      order, and the entry starts without tags. */
  ghost predicate BuiltFrom(e: Entry, p: EntryCreate, actor: string, now: int) {
    var ss := SymptomsGiven(p);
    var incs := IncidentsGiven(p);
    e.title == p.title && e.description == p.description && e.severity == p.severity &&
    e.rootCause == p.rootCause && e.impactSummary == p.impactSummary &&
    e.detectionMethod == p.detectionMethod &&
    e.workflowState == InitialWorkflowState(p) && e.status == InitialStatus(p) &&
    e.createdBy == actor && e.updatedBy == None && e.mergedIntoId == None &&
    e.createdAt == now && e.updatedAt == now && e.publishedAt == None &&
    |e.symptoms| == |ss| &&
    (forall i :: 0 <= i < |ss| ==>
       e.symptoms[i] == Symptom(e.id, ss[i].description, i, ss[i].symptomType)) &&
    |e.incidents| == |incs| &&
    (forall i :: 0 <= i < |incs| ==>
       e.incidents[i] == Incident(e.id, incs[i].incidentId, incs[i].incidentSource,
                                  incs[i].incidentUrl, incs[i].occurredAt, incs[i].resolvedAt)) &&
    e.tags == []
  }

  // --------------------------------------------------------------- store

  class EntryStore {
    /** The entries table with its child tables, keyed by entry id. */
    var entries: map<Id, Entry>
    /** Stands for the database's id generator: every stored id is below it. */
    var nextId: Id

    ghost predicate Valid()
      reads this
    {
      forall k :: k in entries ==> k < nextId && entries[k].id == k && OwnsChildren(entries[k])
    }

    constructor ()
      ensures Valid() && entries == map[]
    {
      entries := map[];
      nextId := 0;
    }

    /** get_entry: the stored aggregate, or None for an unknown id. */
    method Get(id: Id) returns (r: Option<Entry>)
      ensures id in entries ==> r == Some(entries[id])
      ensures id !in entries ==> r == None
    {
      if id in entries {
        r := Some(entries[id]);
      } else {
        r := None;
      }
    }

    /** get_all_entries: newest first, then OFFSET skip LIMIT limit. */
    method List(skip: nat, limit: nat) returns (page: seq<Entry>)
      requires Valid()
      ensures IsNewestFirstPage(page, entries, skip, limit)
      ensures |page| <= limit
      ensures forall i, j :: 0 <= i < j < |page| ==> page[i].createdAt >= page[j].createdAt
      ensures forall e :: e in page ==> e.id in entries && entries[e.id] == e
      ensures skip == 0 && |entries| <= limit ==> |page| == |entries|
    {
      NewestFirstIsTotalPreorder(entries);
      var order := Query.ArrangeKeys(entries.Keys, NewestFirst(entries));
      Query.ArrangesLength(order, entries.Keys, NewestFirst(entries));
      var ids := Query.Window(order, skip, limit);
      page := RowsOf(entries, ids);
      Query.WindowKeepsOrder(order, skip, limit, NewestFirst(entries));
      RowsNewestFirst(entries, ids);
    }

    /** create_entry with the evident intent of lines 57-65: symptom i gets
        order_index i and the new entry has no tags. */
    method Create(p: EntryCreate, actor: string, now: int) returns (e: Entry)
      requires Valid()
      modifies this
      ensures Valid()
      ensures e.id !in old(entries) && entries == old(entries)[e.id := e]
      ensures BuiltFrom(e, p, actor, now)
    {
      var id := nextId;
      var given := SymptomsGiven(p);
      var symptoms: seq<Symptom> := [];
      for i := 0 to |given|
        invariant |symptoms| == i
        invariant forall j :: 0 <= j < i ==>
                    symptoms[j] == Symptom(id, given[j].description, j, given[j].symptomType)
      {
        symptoms := symptoms + [Symptom(id, given[i].description, i, given[i].symptomType)];
      }
      var incs := IncidentsGiven(p);
      var incidents := seq(|incs|, i requires 0 <= i < |incs| =>
        Incident(id, incs[i].incidentId, incs[i].incidentSource,
                 incs[i].incidentUrl, incs[i].occurredAt, incs[i].resolvedAt));
      e := Entry(id, p.title, p.description, p.severity,
                 InitialWorkflowState(p), InitialStatus(p),
                 p.rootCause, p.impactSummary, p.detectionMethod,
                 actor, None, None, now, now, None,
                 symptoms, incidents, []);
      entries := entries[id := e];
      nextId := nextId + 1;
    }

    /** update_entry: None and no change for an unknown id; otherwise the
        given fields are overwritten one by one and updated_by is the actor. */
    method Update(id: Id, u: EntryUpdate, actor: string, now: int) returns (r: Option<Entry>)
      requires Valid()
      modifies this
      ensures Valid()
      ensures id !in old(entries) ==> r == None && entries == old(entries)
      ensures id in old(entries) ==>
                r == Some(Patched(old(entries)[id], u, actor, now)) &&
                entries == old(entries)[id := r.value]
    {
      var found := Get(id);
      if found.Some? {
        var fields := SetFields(u);
        var e := found.value;
        for i := 0 to |fields|
          invariant e == AssignAll(found.value, fields[..i])
        {
          assert fields[..i + 1][..i] == fields[..i];
          e := Assign(e, fields[i]);
        }
        assert fields[..|fields|] == fields;
        e := e.(updatedBy := Some(actor), updatedAt := now);
        AssignAllIsPatched(found.value, u, actor, now);
        PatchedKeepsOwnership(found.value, u, actor, now);
        entries := entries[id := e];
        r := Some(e);
      } else {
        r := None;
      }
    }

    /** delete_entry: None and no change for an unknown id; otherwise that
        entry, its symptoms, incidents and tag links are gone and every
        other entry is untouched. */
    method Delete(id: Id) returns (r: Option<Entry>)
      requires Valid()
      modifies this
      ensures Valid()
      ensures id !in old(entries) ==> r == None && entries == old(entries)
      ensures id in old(entries) ==> r == Some(old(entries)[id]) && entries == old(entries) - {id}
      ensures id !in entries
      ensures forall k :: k in entries ==> NoChildOf(entries[k], id)
    {
      var found := Get(id);
      if found.Some? {
        entries := entries - {id};
      }
      r := found;
    }
  }

  // ----------------------------------------------- create as written

  datatype PyError = TypeError(message: string) | AttributeError(message: string)

  /** Keyword names of `symptom_data.model_dump()`. */
  const SymptomDumpKeys: seq<string> := ["description", "order_index", "symptom_type"]

  /** Field names EntryCreate declares (EntryBase's and its own). */
  const EntryCreateFields: seq<string> :=
    ["title", "description", "severity", "root_cause", "impact_summary", "detection_method",
     "workflow_state", "status", "created_by", "symptoms", "incidents"]

  /** A Python call passing the keyword names `keys` raises TypeError when
      one name is passed twice. */
  predicate RepeatsKeyword(keys: seq<string>) {
    exists i, j :: 0 <= i < j < |keys| && keys[i] == keys[j]
  }

  /** create_entry exactly as written, up to its first exception: None if
      it would return normally. Line 59 calls EntrySymptom with
      `**dump, order_index=i`, where the dump already holds order_index;
      line 64 reads `entry.tags`, an attribute EntryCreate does not have. */
  function CreateAsWritten(p: EntryCreate): Option<PyError> {
    if |SymptomsGiven(p)| > 0 && RepeatsKeyword(SymptomDumpKeys + ["order_index"]) then
      Some(TypeError("got multiple values for keyword argument 'order_index'"))
    else if "tags" !in EntryCreateFields then
      Some(AttributeError("'EntryCreate' object has no attribute 'tags'"))
    else
      None
  }

  /** As written, create_entry never returns: with symptoms it fails at
      line 59, without them at line 64. */
  lemma CreateAsWrittenAlwaysRaises(p: EntryCreate)
    ensures |SymptomsGiven(p)| > 0 ==> CreateAsWritten(p).Some? && CreateAsWritten(p).value.TypeError?
    ensures |SymptomsGiven(p)| == 0 ==> CreateAsWritten(p).Some? && CreateAsWritten(p).value.AttributeError?
  {
    var keys := SymptomDumpKeys + ["order_index"];
    assert keys[1] == keys[3];
  }
}
