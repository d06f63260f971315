/**
 * The records and enumerations of the task platform. The three string
 * unions become datatypes with their wire names; a Task's `domain`, `type`
 * and `status` fields are declared `X | string`, so they are plain strings
 * here and membership in the union is a predicate.
 */
module Types {
  import opened Wrappers

  /** The business areas an agent serves. */
  datatype Domain = Gateway | RiskManagement | Operations

  const AllDomains: seq<Domain> := [Gateway, RiskManagement, Operations]

  function DomainName(d: Domain): string
  {
    match d
    case Gateway => "gateway"
    case RiskManagement => "risk-management"
    case Operations => "operations"
  }

  /** The domain whose wire name is `s`, if there is one. */
  function ParseDomain(s: string): (r: Option<Domain>)
    ensures r.Some? ==> DomainName(r.value) == s
    ensures r.None? ==> forall d :: DomainName(d) != s
  {
    if s == "gateway" then Some(Gateway)
    else if s == "risk-management" then Some(RiskManagement)
    else if s == "operations" then Some(Operations)
    else None
  }

  predicate IsDomain(s: string)
  {
    ParseDomain(s).Some?
  }

  /** The union has exactly three members, each with its own name. */
  lemma DomainsAreThree()
    ensures |AllDomains| == 3
    ensures forall d :: d in AllDomains
    ensures forall i, j :: 0 <= i < j < |AllDomains| ==> DomainName(AllDomains[i]) != DomainName(AllDomains[j])
  {
    forall d ensures d in AllDomains {
      match d
      case Gateway => assert AllDomains[0] == d;
      case RiskManagement => assert AllDomains[1] == d;
      case Operations => assert AllDomains[2] == d;
    }
  }

  /** The kinds of work a task stands for. */
  datatype TaskType = Email | Reschedule | Outreach | Reorder | Maintenance | FollowUp | Analysis

  const AllTaskTypes: seq<TaskType> := [Email, Reschedule, Outreach, Reorder, Maintenance, FollowUp, Analysis]

  function TaskTypeName(t: TaskType): string
  {
    match t
    case Email => "email"
    case Reschedule => "reschedule"
    case Outreach => "outreach"
    case Reorder => "reorder"
    case Maintenance => "maintenance"
    case FollowUp => "follow-up"
    case Analysis => "analysis"
  }

  /** The task type whose wire name is `s`, if there is one. */
  function ParseTaskType(s: string): (r: Option<TaskType>)
    ensures r.Some? ==> TaskTypeName(r.value) == s
    ensures r.None? ==> forall t :: TaskTypeName(t) != s
  {
    if s == "email" then Some(Email)
    else if s == "reschedule" then Some(Reschedule)
    else if s == "outreach" then Some(Outreach)
    else if s == "reorder" then Some(Reorder)
    else if s == "maintenance" then Some(Maintenance)
    else if s == "follow-up" then Some(FollowUp)
    else if s == "analysis" then Some(Analysis)
    else None
  }

  predicate IsTaskType(s: string)
  {
    ParseTaskType(s).Some?
  }

  /** The review states of a task. */
  datatype TaskStatus = Pending | InReview | Approved | Completed | Rejected

  const AllTaskStatuses: seq<TaskStatus> := [Pending, InReview, Approved, Completed, Rejected]

  function StatusName(s: TaskStatus): string
  {
    match s
    case Pending => "pending"
    case InReview => "in-review"
    case Approved => "approved"
    case Completed => "completed"
    case Rejected => "rejected"
  }

  /** The status whose wire name is `s`, if there is one. */
  function ParseStatus(s: string): (r: Option<TaskStatus>)
    ensures r.Some? ==> StatusName(r.value) == s
    ensures r.None? ==> forall t :: StatusName(t) != s
  {
    if s == "pending" then Some(Pending)
    else if s == "in-review" then Some(InReview)
    else if s == "approved" then Some(Approved)
    else if s == "completed" then Some(Completed)
    else if s == "rejected" then Some(Rejected)
    else None
  }

  /** The five status names, in the order the pages list them. */
  const TaskStatusNames: seq<string> := ["pending", "in-review", "approved", "completed", "rejected"]

  /** Membership in the status union, as the task table page tests it. */
  predicate IsTaskStatus(s: string)
  {
    s in TaskStatusNames
  }

  /** The enumerations have seven and five members; every name parses back to its member. */
  lemma {:induction false} EnumerationsRoundTrip()
    ensures |AllTaskTypes| == 7 && (forall t :: t in AllTaskTypes)
    ensures |AllTaskStatuses| == 5 && (forall s :: s in AllTaskStatuses)
    ensures forall d :: ParseDomain(DomainName(d)) == Some(d)
    ensures forall t :: ParseTaskType(TaskTypeName(t)) == Some(t)
    ensures forall s :: ParseStatus(StatusName(s)) == Some(s)
  {
    forall t ensures t in AllTaskTypes {
      match t
      case Email => assert AllTaskTypes[0] == t;
      case Reschedule => assert AllTaskTypes[1] == t;
      case Outreach => assert AllTaskTypes[2] == t;
      case Reorder => assert AllTaskTypes[3] == t;
      case Maintenance => assert AllTaskTypes[4] == t;
      case FollowUp => assert AllTaskTypes[5] == t;
      case Analysis => assert AllTaskTypes[6] == t;
    }
    forall s ensures s in AllTaskStatuses {
      match s
      case Pending => assert AllTaskStatuses[0] == s;
      case InReview => assert AllTaskStatuses[1] == s;
      case Approved => assert AllTaskStatuses[2] == s;
      case Completed => assert AllTaskStatuses[3] == s;
      case Rejected => assert AllTaskStatuses[4] == s;
    }
    forall d ensures ParseDomain(DomainName(d)) == Some(d) {
      match d
      case Gateway =>
      case RiskManagement =>
      case Operations =>
    }
    forall t ensures ParseTaskType(TaskTypeName(t)) == Some(t) {
      match t
      case Email =>
      case Reschedule =>
      case Outreach =>
      case Reorder =>
      case Maintenance =>
      case FollowUp =>
      case Analysis =>
    }
    forall s ensures ParseStatus(StatusName(s)) == Some(s) {
      match s
      case Pending =>
      case InReview =>
      case Approved =>
      case Completed =>
      case Rejected =>
    }
  }

  /** The status-name list holds exactly the names of the status union. */
  lemma StatusNamesAreTheUnion(s: string)
    ensures IsTaskStatus(s) <==> ParseStatus(s).Some?
  {
  }

  /** The priority levels a task's details may carry. */
  datatype Priority = Low | Medium | High

  /** `Number.MAX_SAFE_INTEGER`, the largest integer a JavaScript number holds exactly. */
  const MaxSafeInteger := 0x1F_FFFF_FFFF_FFFF

  /** The integers a JavaScript number represents exactly, with nothing lost to rounding. */
  type SafeInteger = n: int | -MaxSafeInteger <= n <= MaxSafeInteger

  /**
   * `Task.id` is declared `string | number`; a numeric id is an integer in
   * the safe range, where `String` writes it out digit for digit.
   */
  datatype TaskId = Text(text: string) | Number(number: SafeInteger)

  /**
   * `Task.details`: the named optional fields, plus the open-ended
   * extension keys of the index signature (values kept as strings).
   */
  datatype Details = Details(
    recipient: Option<string>,
    scheduledDate: Option<string>,
    company: Option<string>,
    quantity: Option<int>,
    priority: Option<Priority>,
    notes: Option<string>,
    extra: map<string, string>)

  /**
   * A unit of work surfaced for review. `trace` holds whichever of the
   * optional agent-hop response fields and `accountid` are present, by
   * field name.
   */
  datatype Task = Task(
    id: TaskId,
    domain: string,
    taskType: string,
    title: string,
    description: string,
    status: string,
    timestamp: string,
    priority: Option<string>,
    trace: map<string, string>,
    details: Details)

  /** `Omit<Task, 'id' | 'timestamp'>`: what a caller hands to the store. */
  datatype TaskDraft = TaskDraft(
    domain: string,
    taskType: string,
    title: string,
    description: string,
    status: string,
    priority: Option<string>,
    trace: map<string, string>,
    details: Details)

  /** `{ ...draft, id, timestamp }` */
  function Stamp(draft: TaskDraft, id: TaskId, timestamp: string): Task
  {
    Task(id, draft.domain, draft.taskType, draft.title, draft.description, draft.status,
         timestamp, draft.priority, draft.trace, draft.details)
  }

  /** The fields of a task other than its id and timestamp. */
  function Unstamp(t: Task): TaskDraft
  {
    TaskDraft(t.domain, t.taskType, t.title, t.description, t.status, t.priority, t.trace, t.details)
  }

  /** Stamping adds exactly the id and the timestamp and keeps every other field. */
  lemma StampKeepsDraft(draft: TaskDraft, id: TaskId, timestamp: string)
    ensures Unstamp(Stamp(draft, id, timestamp)) == draft
    ensures Stamp(draft, id, timestamp).id == id && Stamp(draft, id, timestamp).timestamp == timestamp
  {
  }

  datatype Role = User | Assistant

  /** One turn of a conversation; unlike a task, its domain is strictly a Domain. */
  datatype ChatMessage = ChatMessage(id: string, domain: Domain, role: Role, content: string, timestamp: string)

  /** `Omit<ChatMessage, 'id' | 'timestamp'>` */
  datatype MessageDraft = MessageDraft(domain: Domain, role: Role, content: string)

  /** Presentation metadata of one domain. */
  datatype DomainConfig = DomainConfig(
    id: Domain,
    name: string,
    description: string,
    color: string,
    icon: string,
    systemPrompt: string)
}
