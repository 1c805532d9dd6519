/** The entry aggregate as stored: an Entry row owning its symptoms,
    incidents and entry-tag links. The enum members and their wire values
    are those the frontend declares for the backend entry
    (frontend/src/services/api.ts:9-11); the ORM model file itself is not
    part of this model. */
module EntryModel {
  import opened Base

  datatype SeverityLevel = Critical | High | Medium | Low | Info {
    /** The enum's `.value`, the string used on the wire and as a
        dashboard distribution key. */
    function Value(): string {
      match this
      case Critical => "critical"
      case High => "high"
      case Medium => "medium"
      case Low => "low"
      case Info => "info"
    }
  }

  datatype WorkflowState = Draft | InReview | Published | Retired | Merged {
    function Value(): string {
      match this
      case Draft => "draft"
      case InReview => "in_review"
      case Published => "published"
      case Retired => "retired"
      case Merged => "merged"
    }
  }

  datatype EntryStatus = Active | Archived {
    function Value(): string {
      match this
      case Active => "active"
      case Archived => "archived"
    }
  }

  /** Iteration order of the Python enums (`for severity in SeverityLevel`). */
  const AllSeverities: seq<SeverityLevel> := [Critical, High, Medium, Low, Info]
  const AllWorkflowStates: seq<WorkflowState> := [Draft, InReview, Published, Retired, Merged]
  const AllStatuses: seq<EntryStatus> := [Active, Archived]

  /** An ordered observation of how the issue shows itself. */
  datatype Symptom = Symptom(
    entryId: Id,
    description: string,
    orderIndex: int,
    symptomType: Option<string>)

  /** A reference to a record in an external incident tracker. */
  datatype Incident = Incident(
    entryId: Id,
    incidentId: string,
    incidentSource: string,
    incidentUrl: Option<string>,
    occurredAt: Option<int>,
    resolvedAt: Option<int>)

  /** A row of the entry_tags join table. */
  datatype EntryTag = EntryTag(entryId: Id, tagId: Id)

  datatype Entry = Entry(
    id: Id,
    title: string,
    description: string,
    severity: SeverityLevel,
    workflowState: WorkflowState,
    status: EntryStatus,
    rootCause: Option<string>,
    impactSummary: Option<string>,
    detectionMethod: Option<string>,
    createdBy: string,
    updatedBy: Option<string>,
    mergedIntoId: Option<Id>,
    createdAt: int,
    updatedAt: int,
    publishedAt: Option<int>,
    symptoms: seq<Symptom>,
    incidents: seq<Incident>,
    tags: seq<EntryTag>)

  /** Every child row points back at its owner, and symptom i carries
      order_index i (the position it was given at creation). */
  predicate OwnsChildren(e: Entry) {
    (forall i :: 0 <= i < |e.symptoms| ==> e.symptoms[i].entryId == e.id && e.symptoms[i].orderIndex == i) &&
    (forall i :: 0 <= i < |e.incidents| ==> e.incidents[i].entryId == e.id) &&
    (forall i :: 0 <= i < |e.tags| ==> e.tags[i].entryId == e.id)
  }

  /** No child row of e refers to the entry `id`. */
  predicate NoChildOf(e: Entry, id: Id) {
    (forall i :: 0 <= i < |e.symptoms| ==> e.symptoms[i].entryId != id) &&
    (forall i :: 0 <= i < |e.incidents| ==> e.incidents[i].entryId != id) &&
    (forall i :: 0 <= i < |e.tags| ==> e.tags[i].entryId != id)
  }
}
