/** The browser client's translation between the backend's entry records
    and the flatter records its screens use (frontend/src/services/api.ts).
    The backend has five severities and five workflow states, the screens
    three of each, so the translation towards the screens merges values and
    is not invertible, while every value the screens can produce survives a
    trip to the backend and back. JavaScript's `a || b` picks b when a is
    undefined, null or the empty string; `Truthy` below says when. */
module ApiMapping {
  import opened Base
  import opened Text
  import EntrySchemas

  /** The screens' severity: 'High' | 'Medium' | 'Low'. */
  datatype FrontSeverity = High | Medium | Low
  /** The screens' status: 'Draft' | 'Pending Review' | 'Published'. */
  datatype FrontStatus = Draft | PendingReview | Published

  /** `severityMap` towards the screens. */
  const SeverityTable: map<string, FrontSeverity> :=
    map["critical" := High, "high" := High, "medium" := Medium, "low" := Low, "info" := Low]
  /** `statusMap` towards the screens, keyed by workflow state. */
  const StatusTable: map<string, FrontStatus> :=
    map["draft" := Draft, "in_review" := PendingReview, "published" := Published,
        "retired" := Published, "merged" := Published]
  /** `severityMap` towards the backend. */
  function BackendSeverity(s: FrontSeverity): string {
    match s
    case High => "high"
    case Medium => "medium"
    case Low => "low"
  }

  /** `statusMap` towards the backend. */
  function BackendStatus(s: FrontStatus): string {
    match s
    case Draft => "draft"
    case PendingReview => "in_review"
    case Published => "published"
  }

  /** One element of the `solutions` array: its `type` and `description`. */
  datatype Solution = Solution(kind: string, description: string)

  /** The JSON entry the backend sends. Severity and workflow state are
      kept as the raw strings the client receives; optional keys are
      `Option`s; a symptom is represented by its description. */
  datatype BackendEntry = BackendEntry(
    id: string,
    title: string,
    description: string,
    severity: string,
    workflowState: string,
    status: string,
    createdBy: string,
    updatedBy: Option<string>,
    rootCause: Option<string>,
    symptoms: Option<seq<string>>,
    solutions: Option<seq<Solution>>)

  /** The screens' record (dates left out). */
  datatype FrontendEntry = FrontendEntry(
    id: string,
    errorCode: string,
    name: string,
    symptoms: string,
    rootCause: string,
    workarounds: string,
    resolution: string,
    severity: FrontSeverity,
    status: FrontStatus,
    createdBy: string,
    updatedBy: string)

  /** `Partial<FrontendEntry>` as the entry form fills it: only the fields
      the outgoing translation reads. */
  datatype FrontendDraft = FrontendDraft(
    name: Option<string>,
    symptoms: Option<string>,
    severity: Option<FrontSeverity>,
    status: Option<FrontStatus>,
    rootCause: Option<string>)

  /** The `Partial<BackendEntry>` body sent on create and update; an absent
      title is a key `JSON.stringify` drops. */
  datatype BackendPayload = BackendPayload(
    title: Option<string>,
    description: string,
    severity: string,
    workflowState: string,
    status: string,
    createdBy: string,
    rootCause: Option<string>)

  const SymptomSeparator: string := "; "
  const NoRootCause: string := "Not specified"
  const NoWorkaround: string := "No workaround available"
  const NoResolution: string := "Resolution pending"
  const PlaceholderCreator: string := "user@example.com"

  /** A present, non-empty string: what `||` keeps. */
  predicate Truthy(o: Option<string>) {
    o.Some? && o.value != ""
  }

  /** `o || fallback` on an optional string: a present non-empty value
      wins, and the result is empty only when the fallback is used and is
      itself empty. */
  function OrElse(o: Option<string>, fallback: string): (r: string)
    ensures Truthy(o) ==> r == o.value
    ensures r == "" <==> !Truthy(o) && fallback == ""
    ensures r == fallback || (o.Some? && r == o.value)
  {
    if Truthy(o) then o.value else fallback
  }

  /** `severityMap[s] || 'Medium'`. */
  function SeverityToFrontend(s: string): FrontSeverity {
    if s in SeverityTable then SeverityTable[s] else Medium
  }

  /** `statusMap[w] || 'Draft'`. */
  function StatusToFrontend(w: string): FrontStatus {
    if w in StatusTable then StatusTable[w] else Draft
  }

  /** `s ? severityMap[s] : 'medium'`. */
  function SeverityToBackend(s: Option<FrontSeverity>): string {
    if s.Some? then BackendSeverity(s.value) else "medium"
  }

  /** `s ? statusMap[s] : 'draft'`. */
  function StatusToBackend(s: Option<FrontStatus>): string {
    if s.Some? then BackendStatus(s.value) else "draft"
  }

  /** The descriptions of the solutions of one `type`, in order:
      `filter(s => s.type === kind).map(s => s.description)`. */
  function DescriptionsOfKind(sols: seq<Solution>, kind: string): (r: seq<string>)
    ensures |r| <= |sols|
    ensures forall d :: d in r ==> exists i :: 0 <= i < |sols| && sols[i].kind == kind && sols[i].description == d
    ensures forall i :: 0 <= i < |sols| && sols[i].kind == kind ==> sols[i].description in r
    ensures (forall i :: 0 <= i < |sols| ==> sols[i].kind != kind) <==> r == []
  {
    if sols == [] then []
    else if sols[0].kind == kind then [sols[0].description] + DescriptionsOfKind(sols[1..], kind)
    else DescriptionsOfKind(sols[1..], kind)
  }

  /** Filtering and mapping a concatenation is doing it to each part in
      turn: together with the one-solution case this fixes the result as
      the matching descriptions in the solutions' order. */
  lemma {:induction false} DescriptionsOfKindAppend(a: seq<Solution>, b: seq<Solution>, kind: string)
    ensures DescriptionsOfKind(a + b, kind) == DescriptionsOfKind(a, kind) + DescriptionsOfKind(b, kind)
  {
    if a == [] {
      assert a + b == b;
    } else {
      assert (a + b)[0] == a[0] && (a + b)[1..] == a[1..] + b;
      DescriptionsOfKindAppend(a[1..], b, kind);
    }
  }

  /** One solution contributes its description exactly when its type matches. */
  lemma DescriptionsOfOne(s: Solution, kind: string)
    ensures DescriptionsOfKind([s], kind) == if s.kind == kind then [s.description] else []
  {
    assert [s][1..] == [];
  }

  /** `xs?.map(…).join('; ')`: undefined when the array is. */
  function JoinPresent(parts: Option<seq<string>>): Option<string> {
    if parts.Some? then Some(Join(parts.value, SymptomSeparator)) else None
  }

  function SolutionText(sols: Option<seq<Solution>>, kind: string): Option<string> {
    if sols.Some? then Some(Join(DescriptionsOfKind(sols.value, kind), SymptomSeparator)) else None
  }

  /** mapBackendToFrontend. */
  function MapBackendToFrontend(b: BackendEntry): (f: FrontendEntry)
    ensures f.id == b.id && f.name == b.title && f.createdBy == b.createdBy
    // the error code: the id's first (up to) eight characters, upper-cased
    ensures |f.errorCode| == Min(8, |b.id|)
    ensures forall i :: 0 <= i < |f.errorCode| ==> f.errorCode[i] == UpperChar(b.id[i])
    // the entry's description stands in when there is no symptom text
    ensures b.symptoms.None? || b.symptoms.value == [] ==> f.symptoms == b.description
    ensures b.symptoms.Some? && |b.symptoms.value| == 1 ==>
              f.symptoms == (if b.symptoms.value[0] != "" then b.symptoms.value[0] else b.description)
    ensures b.symptoms.Some? && |b.symptoms.value| > 1 ==> f.symptoms == Join(b.symptoms.value, SymptomSeparator)
    // a root cause is always shown, the stored one when there is one
    ensures f.rootCause != "" && (Truthy(b.rootCause) ==> f.rootCause == b.rootCause.value)
    ensures f.workarounds != "" && f.resolution != ""
    ensures f.updatedBy == (if Truthy(b.updatedBy) then b.updatedBy.value else b.createdBy)
  {
    JoinEmptyIff(if b.symptoms.Some? then b.symptoms.value else [], SymptomSeparator);
    FrontendEntry(
      b.id,
      Upper(b.id[..Min(8, |b.id|)]),
      b.title,
      OrElse(JoinPresent(b.symptoms), b.description),
      OrElse(b.rootCause, NoRootCause),
      OrElse(SolutionText(b.solutions, "workaround"), NoWorkaround),
      OrElse(SolutionText(b.solutions, "resolution"), NoResolution),
      SeverityToFrontend(b.severity),
      StatusToFrontend(b.workflowState),
      b.createdBy,
      OrElse(b.updatedBy, b.createdBy))
  }

  /** mapFrontendToBackend: the screens can only send the three severities
      and three workflow states they know, always as an active entry. */
  function MapFrontendToBackend(f: FrontendDraft): (p: BackendPayload)
    ensures p.title == f.name && p.rootCause == f.rootCause
    ensures p.status == "active" && p.createdBy == PlaceholderCreator
    ensures p.description == "" <==> !Truthy(f.symptoms)
    ensures Truthy(f.symptoms) ==> p.description == f.symptoms.value
    ensures p.severity in {"high", "medium", "low"}
    ensures p.workflowState in {"draft", "in_review", "published"}
    ensures f.severity.None? ==> p.severity == "medium"
    ensures f.status.None? ==> p.workflowState == "draft"
  {
    BackendPayload(
      f.name,
      OrElse(f.symptoms, ""),
      SeverityToBackend(f.severity),
      StatusToBackend(f.status),
      "active",
      PlaceholderCreator,
      f.rootCause)
  }

  /** Which backend severities show as which screen severity: critical and
      high as High, low and info as Low, medium and every unknown string as
      Medium. */
  lemma SeverityToFrontendShape(s: string)
    ensures SeverityToFrontend(s) == High <==> s == "critical" || s == "high"
    ensures SeverityToFrontend(s) == Low <==> s == "low" || s == "info"
    ensures SeverityToFrontend(s) == Medium <==> s !in {"critical", "high", "low", "info"}
  {
  }

  /** Which workflow states show as which screen status: draft and every
      unknown string as Draft, in_review as Pending Review, published,
      retired and merged as Published. */
  lemma StatusToFrontendShape(w: string)
    ensures StatusToFrontend(w) == PendingReview <==> w == "in_review"
    ensures StatusToFrontend(w) == Published <==> w in {"published", "retired", "merged"}
    ensures StatusToFrontend(w) == Draft <==> w !in {"in_review", "published", "retired", "merged"}
  {
  }

  /** Every severity and status the screens use comes back unchanged from
      the backend's spelling; an unset one comes back as the default. */
  lemma FrontendValuesRoundTrip(s: Option<FrontSeverity>, w: Option<FrontStatus>)
    ensures SeverityToFrontend(SeverityToBackend(s)) == s.GetOr(Medium)
    ensures StatusToFrontend(StatusToBackend(w)) == w.GetOr(Draft)
  {
  }

  /** A backend severity survives the trip to the screens and back exactly
      when it is one of high, medium and low: critical comes back as high
      and info as low. */
  lemma BackendSeverityRoundTrip(s: string)
    ensures SeverityToBackend(Some(SeverityToFrontend(s))) == s <==> s in {"high", "medium", "low"}
    ensures SeverityToBackend(Some(SeverityToFrontend("critical"))) == "high"
    ensures SeverityToBackend(Some(SeverityToFrontend("info"))) == "low"
  {
  }

  /** A workflow state survives the trip exactly when it is draft,
      in_review or published: retired and merged come back as published. */
  lemma BackendWorkflowRoundTrip(w: string)
    ensures StatusToBackend(Some(StatusToFrontend(w))) == w <==> w in {"draft", "in_review", "published"}
    ensures StatusToBackend(Some(StatusToFrontend("retired"))) == "published"
    ensures StatusToBackend(Some(StatusToFrontend("merged"))) == "published"
  {
  }

  /** The entry the backend sends back after storing a payload with no
      symptoms and no solutions. */
  function Echo(p: BackendPayload, id: string, creator: string): BackendEntry {
    BackendEntry(id, p.title.GetOr(""), p.description, p.severity, p.workflowState, p.status,
                 creator, None, p.rootCause, Some([]), None)
  }

  /** What the form sends is what the screens show once the backend echoes
      it: name, symptom text, severity, status and root cause come back as
      entered (unset ones as their defaults). */
  lemma FormRoundTrip(f: FrontendDraft, id: string, creator: string)
    requires f.name.Some?
    ensures var g := MapBackendToFrontend(Echo(MapFrontendToBackend(f), id, creator));
      g.name == f.name.value &&
      g.symptoms == OrElse(f.symptoms, "") &&
      g.severity == f.severity.GetOr(Medium) &&
      g.status == f.status.GetOr(Draft) &&
      g.rootCause == OrElse(f.rootCause, NoRootCause) &&
      g.workarounds == NoWorkaround && g.resolution == NoResolution
  {
    FrontendValuesRoundTrip(f.severity, f.status);
  }

  /** A form submitted without symptom text sends an empty description,
      which the backend's `description` constraint (at least one character)
      rejects. */
  lemma BlankSymptomsRejected(f: FrontendDraft, c: EntrySchemas.EntryCreate)
    requires c.description == MapFrontendToBackend(f).description
    requires !Truthy(f.symptoms)
    ensures !EntrySchemas.ValidEntryCreate(c)
  {
  }
}
