/**
 * The domain records of the CRM: clients with their logged interactions,
 * projects, and the catalogue of services.
 *
 * Dates are integer millisecond timestamps. A stored date (an interaction's
 * date, `lastContacted`, a project's deadline) is the start of a UTC day,
 * which is what the application's `YYYY-MM-DD` strings denote. Ids are
 * opaque strings. Money is a whole number.
 */
module Types {
  import opened Seqs

  datatype Option<+T> = None | Some(value: T)

  type Timestamp = int

  /** Milliseconds in a day, `1000 * 60 * 60 * 24`. */
  const DayMs: nat := 86400000

  /**
   * `new Date().toISOString().split('T')[0]`, read back as a timestamp: the
   * UTC midnight that starts the day of `now`.
   */
  function Today(now: Timestamp): (d: Timestamp)
    ensures d % DayMs == 0
    ensures d <= now < d + DayMs
  {
    now - now % DayMs
  }

  datatype ClientStatus = Lead | Contacted | Negotiating | Closed | Lost

  /** `Object.values(ClientStatus)`: declaration order. */
  const ClientStatuses: seq<ClientStatus> := [Lead, Contacted, Negotiating, Closed, Lost]

  datatype ProjectStatus = Planning | InProgress | Review | Completed

  /** `Object.values(ProjectStatus)`: declaration order. */
  const ProjectStatuses: seq<ProjectStatus> := [Planning, InProgress, Review, Completed]

  /** The four kinds an interaction can have (its `type` field). */
  datatype InteractionKind = Call | Email | Meeting | Note

  datatype Interaction = Interaction(id: string, date: Timestamp, kind: InteractionKind, notes: string)

  datatype ServiceOption = ServiceOption(id: string, name: string, description: string, priceEstimate: int)

  /**
   * `lastContacted` is the only optional field. `interestedServices` holds
   * service ids, which nothing ties to the service catalogue.
   */
  datatype Client = Client(
    id: string,
    name: string,
    company: string,
    industry: string,
    email: string,
    phone: string,
    website: string,
    projectNotes: string,
    status: ClientStatus,
    lastContacted: Option<Timestamp>,
    interestedServices: seq<string>,
    interactions: seq<Interaction>)

  /** `clientId` is a plain id; nothing ties it to an existing client. */
  datatype Project = Project(
    id: string,
    clientId: string,
    title: string,
    status: ProjectStatus,
    deadline: Timestamp,
    value: int,
    description: string)

  function ClientId(c: Client): string { c.id }
  function ProjectId(p: Project): string { p.id }
  function ServiceId(s: ServiceOption): string { s.id }
  function ClientStatusOf(c: Client): ClientStatus { c.status }
  function ProjectStatusOf(p: Project): ProjectStatus { p.status }

  /** The string value behind each client status. */
  function ClientStatusLabel(s: ClientStatus): string
  {
    match s
    case Lead => "Lead"
    case Contacted => "Contacted"
    case Negotiating => "Negotiating"
    case Closed => "Closed"
    case Lost => "Lost"
  }

  /** The string value behind each project status. */
  function ProjectStatusLabel(s: ProjectStatus): string
  {
    match s
    case Planning => "Planning"
    case InProgress => "In Progress"
    case Review => "Review"
    case Completed => "Completed"
  }

  /** The position of a client status in the enumeration: every status has exactly one. */
  function ClientStatusIndex(s: ClientStatus): (i: nat)
    ensures i < |ClientStatuses| && ClientStatuses[i] == s
    ensures forall j :: 0 <= j < |ClientStatuses| && ClientStatuses[j] == s ==> j == i
  {
    match s
    case Lead => 0
    case Contacted => 1
    case Negotiating => 2
    case Closed => 3
    case Lost => 4
  }

  /** The position of a project status in the enumeration: every status has exactly one. */
  function ProjectStatusIndex(s: ProjectStatus): (i: nat)
    ensures i < |ProjectStatuses| && ProjectStatuses[i] == s
    ensures forall j :: 0 <= j < |ProjectStatuses| && ProjectStatuses[j] == s ==> j == i
  {
    match s
    case Planning => 0
    case InProgress => 1
    case Review => 2
    case Completed => 3
  }

  /**
   * Each enumeration lists every value exactly once, and the labels are
   * pairwise different; none of them is the word `ALL` that the client
   * filter uses for "every status".
   */
  lemma EnumerationsComplete()
    ensures |ClientStatuses| == 5 && Distinct(ClientStatuses)
    ensures forall s: ClientStatus :: s in ClientStatuses
    ensures |ProjectStatuses| == 4 && Distinct(ProjectStatuses)
    ensures forall s: ProjectStatus :: s in ProjectStatuses
    ensures forall s, t :: ClientStatusLabel(s) == ClientStatusLabel(t) ==> s == t
    ensures forall s, t :: ProjectStatusLabel(s) == ProjectStatusLabel(t) ==> s == t
    ensures forall s :: ClientStatusLabel(s) != "ALL"
  {
    forall s: ClientStatus ensures s in ClientStatuses {
      assert ClientStatuses[ClientStatusIndex(s)] == s;
    }
    forall s: ProjectStatus ensures s in ProjectStatuses {
      assert ProjectStatuses[ProjectStatusIndex(s)] == s;
    }
  }
}
