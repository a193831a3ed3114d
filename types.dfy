/**
 * The records of the advisory dashboard: clients, engagement phases with
 * their activities and deliverables, use cases, strategy documents and
 * uploaded client documents. Identifiers, dates and labels are strings,
 * as in the application; optional fields are `Option`s.
 */
module Types {

  datatype Option<T> = None | Some(value: T)

  /** The status of a phase or of one of its activities. */
  datatype PhaseStatus = Completed | InProgress | Upcoming | NotStarted | NotIncluded

  /** The status of a deliverable. */
  datatype DeliverableStatus = NotStarted | InProgress | InReview | Delivered | NotIncluded

  datatype Activity = Activity(
    id: string,
    title: string,
    description: string,
    status: PhaseStatus,
    completedDate: Option<string>)

  datatype Deliverable = Deliverable(
    id: string,
    title: string,
    description: string,
    phaseId: string,
    status: DeliverableStatus,
    dueDate: string,
    deliveredDate: Option<string>,
    documentId: Option<string>)

  /**
   * An engagement phase. `status` and `progress` are the stored values the
   * phase was seeded or created with; the dashboard never reads them and
   * derives both from the activities and deliverables instead.
   */
  datatype Phase = Phase(
    id: string,
    clientId: string,
    phaseNumber: nat,
    title: string,
    subtitle: string,
    timeline: string,
    investment: string,
    status: PhaseStatus,
    progress: nat,
    activities: seq<Activity>,
    deliverables: seq<Deliverable>,
    keyServices: seq<string>)

  datatype Contact = Contact(id: string, name: string, role: string, email: string, isPrimary: bool)

  datatype Client = Client(
    id: string,
    name: string,
    industry: string,
    size: string,
    contacts: seq<Contact>,
    strategicGoals: seq<string>,
    createdAt: string)

  datatype Complexity = Low | Medium | High

  datatype UseCaseStatus = Identified | Evaluated | Approved | InProgress | Completed

  datatype UseCase = UseCase(
    id: string,
    clientId: string,
    title: string,
    description: string,
    department: string,
    industry: string,
    complexity: Complexity,
    impact: int,
    effort: int,
    status: UseCaseStatus,
    tags: seq<string>)

  datatype StrategyDocumentKind = AiStrategy | UsagePolicy | EducationPlan | UseCaseRoadmap

  datatype DocumentStatus = Draft | Review | Approved

  datatype StrategyDocument = StrategyDocument(
    id: string,
    clientId: string,
    title: string,
    kind: StrategyDocumentKind,
    content: string,
    version: int,
    status: DocumentStatus,
    lastModified: string,
    createdBy: string)

  datatype DocumentCategory = DeliverableDocument | MeetingNotes | Reference | Report | Template

  /** An uploaded file; `data` is the file's content as a data URL. */
  datatype ClientDocument = ClientDocument(
    id: string,
    clientId: string,
    name: string,
    mimeType: string,
    size: nat,
    data: string,
    uploadedAt: string,
    category: DocumentCategory)
}
