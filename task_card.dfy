/**
 * The task card (`components/TaskCard.tsx`): the icon chosen for the task
 * type and the status actions the card offers for each status.
 */
module TaskCard {
  import opened Wrappers
  import opened Types

  /** The icons of the `lucide-react` set the card uses for task types. */
  datatype Icon = Mail | Calendar | Users | Package | Wrench | ArrowRight | Clock

  /** `taskTypeIcons`: one icon per task type name. */
  const TaskTypeIcons: map<string, Icon> := map[
    "email" := Mail,
    "reschedule" := Calendar,
    "outreach" := Users,
    "reorder" := Package,
    "maintenance" := Wrench,
    "follow-up" := ArrowRight,
    "analysis" := Clock
  ]

  /** `taskTypeIcons[task.type] || Mail`: the table's icon, or Mail for a type it lacks. */
  function IconFor(taskType: string): (icon: Icon)
    ensures taskType !in TaskTypeIcons ==> icon == Mail
    ensures taskType in TaskTypeIcons ==> icon == TaskTypeIcons[taskType]
  {
    if taskType in TaskTypeIcons then TaskTypeIcons[taskType] else Mail
  }

  /**
   * The table covers exactly the seven task types, and Mail stands for
   * `email` and for every string that is not a task type; the other six
   * types each have an icon of their own.
   */
  lemma IconsCoverTaskTypes(taskType: string)
    ensures taskType in TaskTypeIcons <==> IsTaskType(taskType)
    ensures IconFor(taskType) == Mail <==> (taskType == "email" || !IsTaskType(taskType))
  {
  }

  /** Distinct task types get distinct icons. */
  lemma IconsDistinguishTypes(t1: TaskType, t2: TaskType)
    requires t1 != t2
    ensures IconFor(TaskTypeName(t1)) != IconFor(TaskTypeName(t2))
  {
  }

  /** A call `onStatusChange(taskId, status)` a button of the card makes. */
  datatype StatusRequest = StatusRequest(taskId: TaskId, status: TaskStatus)

  /**
   * The status buttons the card shows, in display order: Approve and Reject
   * for a pending task, Mark Complete for an approved one, none otherwise.
   * Every button sends the card's own task id.
   */
  function OfferedRequests(task: Task): (r: seq<StatusRequest>)
    ensures task.status == "pending" ==> |r| == 2 && r[0].status == Approved && r[1].status == Rejected
    ensures task.status == "approved" ==> |r| == 1 && r[0].status == Completed
    ensures task.status != "pending" && task.status != "approved" ==> r == []
    ensures forall i :: 0 <= i < |r| ==> r[i].taskId == task.id
  {
    if task.status == "pending" then
      [StatusRequest(task.id, Approved), StatusRequest(task.id, Rejected)]
    else if task.status == "approved" then
      [StatusRequest(task.id, Completed)]
    else
      []
  }

  /** How far along the review a status is; `completed` and `rejected` end it. */
  function Stage(s: TaskStatus): nat
  {
    match s
    case Pending => 0
    case InReview => 1
    case Approved => 2
    case Completed => 3
    case Rejected => 3
  }

  /**
   * Every offered action moves the task strictly forward, so no sequence
   * of card clicks returns a task to an earlier status, and a card whose
   * task has reached the last stage offers nothing.
   */
  lemma OfferedRequestsAdvance(task: Task, i: nat)
    requires i < |OfferedRequests(task)|
    ensures IsTaskStatus(task.status)
    ensures Stage(OfferedRequests(task)[i].status) > Stage(ParseStatus(task.status).value)
  {
  }

  /** At the last stage, and for an in-review task, the card offers no action. */
  lemma NoActionsOutsidePendingAndApproved(task: Task)
    requires task.status in ["in-review", "completed", "rejected"]
    ensures OfferedRequests(task) == []
  {
  }
}
