/** Request payloads of the entry endpoints and the field constraints the
    request validator enforces on them (backend/app/schemas/entry.py).
    A validator reports, per field, the first constraint that field fails;
    an empty report means the payload is accepted. */
module EntrySchemas {
  import opened Base
  import opened EntryModel
  import opened Validation

  // ---------------------------------------------------------------- symptoms

  /** EntrySymptomCreate: the client's `order_index` is validated but, on
      creation, replaced by the symptom's position. */
  datatype SymptomIn = SymptomIn(description: string, orderIndex: int, symptomType: Option<string>)

  predicate ValidSymptom(s: SymptomIn) {
    1 <= |s.description| <= 1000 &&
    s.orderIndex >= 0 &&
    (s.symptomType.Some? ==> |s.symptomType.value| <= 100)
  }

  function SymptomViolations(s: SymptomIn): (r: seq<Violation>)
    ensures r == [] <==> ValidSymptom(s)
  {
    LengthCheck("description", s.description, 1, Some(1000)) +
    (if s.orderIndex < 0 then [Violation("order_index", AtLeast(0))] else []) +
    OptionalLengthCheck("symptom_type", s.symptomType, 100)
  }

  // --------------------------------------------------------------- incidents

  datatype IncidentIn = IncidentIn(
    incidentId: string,
    incidentSource: string,
    incidentUrl: Option<string>,
    occurredAt: Option<int>,
    resolvedAt: Option<int>)

  predicate ValidIncident(i: IncidentIn) {
    1 <= |i.incidentId| <= 255 &&
    1 <= |i.incidentSource| <= 100 &&
    (i.incidentUrl.Some? ==> |i.incidentUrl.value| <= 1000)
  }

  function IncidentViolations(i: IncidentIn): (r: seq<Violation>)
    ensures r == [] <==> ValidIncident(i)
  {
    LengthCheck("incident_id", i.incidentId, 1, Some(255)) +
    LengthCheck("incident_source", i.incidentSource, 1, Some(100)) +
    OptionalLengthCheck("incident_url", i.incidentUrl, 1000)
  }

  /** Reports of every element of a list, in list order. */
  function SymptomListViolations(ss: seq<SymptomIn>): (r: seq<Violation>)
    ensures r == [] <==> forall i :: 0 <= i < |ss| ==> ValidSymptom(ss[i])
  {
    if ss == [] then []
    else
      var rest := SymptomListViolations(ss[1..]);
      assert forall i :: 1 <= i < |ss| ==> ss[i] == ss[1..][i - 1];
      SymptomViolations(ss[0]) + rest
  }

  function IncidentListViolations(incs: seq<IncidentIn>): (r: seq<Violation>)
    ensures r == [] <==> forall i :: 0 <= i < |incs| ==> ValidIncident(incs[i])
  {
    if incs == [] then []
    else
      var rest := IncidentListViolations(incs[1..]);
      assert forall i :: 1 <= i < |incs| ==> incs[i] == incs[1..][i - 1];
      IncidentViolations(incs[0]) + rest
  }

  // ------------------------------------------------------------ entry base

  /** EntryBase's bounds: title 1..500, non-empty description,
      detection_method at most 255. */
  predicate ValidBase(title: string, description: string, detectionMethod: Option<string>) {
    1 <= |title| <= 500 &&
    1 <= |description| &&
    (detectionMethod.Some? ==> |detectionMethod.value| <= 255)
  }

  function BaseViolations(title: string, description: string, detectionMethod: Option<string>): (r: seq<Violation>)
    ensures r == [] <==> ValidBase(title, description, detectionMethod)
  {
    LengthCheck("title", title, 1, Some(500)) +
    LengthCheck("description", description, 1, None) +
    OptionalLengthCheck("detection_method", detectionMethod, 255)
  }

  // ---------------------------------------------------------------- create

  /** EntryCreate. `workflowState` and `status` are None when the client
      left them out; the schema then supplies its defaults. */
  datatype EntryCreate = EntryCreate(
    title: string,
    description: string,
    severity: SeverityLevel,
    rootCause: Option<string>,
    impactSummary: Option<string>,
    detectionMethod: Option<string>,
    workflowState: Option<WorkflowState>,
    status: Option<EntryStatus>,
    createdBy: string,
    symptoms: Option<seq<SymptomIn>>,
    incidents: Option<seq<IncidentIn>>)

  /** `workflow_state` defaults to draft. */
  function InitialWorkflowState(p: EntryCreate): (w: WorkflowState)
    ensures p.workflowState.None? ==> w == Draft
    ensures p.workflowState.Some? ==> w == p.workflowState.value
  {
    p.workflowState.GetOr(Draft)
  }

  /** `status` defaults to active. */
  function InitialStatus(p: EntryCreate): (s: EntryStatus)
    ensures p.status.None? ==> s == Active
    ensures p.status.Some? ==> s == p.status.value
  {
    p.status.GetOr(Active)
  }

  /** The symptom list, an omitted list counting as empty. */
  function SymptomsGiven(p: EntryCreate): seq<SymptomIn> {
    p.symptoms.GetOr([])
  }

  function IncidentsGiven(p: EntryCreate): seq<IncidentIn> {
    p.incidents.GetOr([])
  }

  predicate ValidEntryCreate(p: EntryCreate) {
    ValidBase(p.title, p.description, p.detectionMethod) &&
    1 <= |p.createdBy| &&
    (forall i :: 0 <= i < |SymptomsGiven(p)| ==> ValidSymptom(SymptomsGiven(p)[i])) &&
    (forall i :: 0 <= i < |IncidentsGiven(p)| ==> ValidIncident(IncidentsGiven(p)[i]))
  }

  function EntryCreateViolations(p: EntryCreate): (r: seq<Violation>)
    ensures r == [] <==> ValidEntryCreate(p)
  {
    BaseViolations(p.title, p.description, p.detectionMethod) +
    LengthCheck("created_by", p.createdBy, 1, None) +
    SymptomListViolations(SymptomsGiven(p)) +
    IncidentListViolations(IncidentsGiven(p))
  }

  // ---------------------------------------------------------------- update

  /** EntryUpdate: every field optional. Nullable columns take an
      `Option` so that an explicit null is representable. */
  datatype EntryUpdate = EntryUpdate(
    title: Patch<string>,
    description: Patch<string>,
    severity: Patch<SeverityLevel>,
    workflowState: Patch<WorkflowState>,
    status: Patch<EntryStatus>,
    updatedBy: Patch<Option<string>>,
    rootCause: Patch<Option<string>>,
    impactSummary: Patch<Option<string>>,
    detectionMethod: Patch<Option<string>>)

  /** The payload `{}`. */
  const EmptyUpdate := EntryUpdate(Unset, Unset, Unset, Unset, Unset, Unset, Unset, Unset, Unset)

  predicate ValidEntryUpdate(u: EntryUpdate) {
    (u.title.Given? ==> 1 <= |u.title.value| <= 500) &&
    (u.description.Given? ==> 1 <= |u.description.value|) &&
    (u.updatedBy.Given? && u.updatedBy.value.Some? ==> 1 <= |u.updatedBy.value.value|) &&
    (u.detectionMethod.Given? && u.detectionMethod.value.Some? ==> |u.detectionMethod.value.value| <= 255)
  }

  function PatchLengthCheck(field: string, p: Patch<string>, min: nat, max: Option<nat>): seq<Violation> {
    if p.Given? then LengthCheck(field, p.value, min, max) else []
  }

  function NullablePatchLengthCheck(field: string, p: Patch<Option<string>>, min: nat, max: Option<nat>): seq<Violation> {
    if p.Given? && p.value.Some? then LengthCheck(field, p.value.value, min, max) else []
  }

  function EntryUpdateViolations(u: EntryUpdate): (r: seq<Violation>)
    ensures r == [] <==> ValidEntryUpdate(u)
  {
    PatchLengthCheck("title", u.title, 1, Some(500)) +
    PatchLengthCheck("description", u.description, 1, None) +
    NullablePatchLengthCheck("updated_by", u.updatedBy, 1, None) +
    NullablePatchLengthCheck("detection_method", u.detectionMethod, 0, Some(255))
  }

  /** Every EntryUpdate field is optional: the empty payload is valid. */
  lemma EmptyUpdateIsValid()
    ensures EntryUpdateViolations(EmptyUpdate) == []
  {
  }
}
