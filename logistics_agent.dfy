/**
 * The agent page (`pages/logisticsAgent.tsx`): the `?domain=` query
 * parameter that picks the starting domain, and the routing of a status
 * change to archiving or to the store's status update.
 */
module LogisticsAgent {
  import opened Wrappers
  import opened Types
  import opened Storage

  /** The domain selected before the mount effect runs. */
  const InitialDomain: Domain := Gateway

  /**
   * The selection after the mount effect has read the `domain` query
   * parameter: the named domain when the parameter is one of the three
   * domain names, the current selection otherwise (absent, empty or
   * unrecognised).
   */
  function SelectedDomainAfterMount(current: Domain, param: Option<string>): (d: Domain)
    ensures param.Some? && IsDomain(param.value) ==> DomainName(d) == param.value
    ensures param.None? || !IsDomain(param.value) ==> d == current
  {
    if param.Some? && param.value != "" then
      match ParseDomain(param.value)
      case Some(named) => named
      case None => current
    else
      current
  }

  /**
   * A freshly mounted page shows `gateway` unless the parameter names
   * another domain, and every domain can be reached through its name.
   */
  lemma MountSelection(param: Option<string>)
    ensures SelectedDomainAfterMount(InitialDomain, param) != Gateway ==>
              param.Some? && (param.value == "risk-management" || param.value == "operations")
    ensures forall d :: SelectedDomainAfterMount(InitialDomain, Some(DomainName(d))) == d
  {
  }

  /** A call the status handler makes, in the order it makes them. */
  datatype Call =
    | ArchiveTask(taskId: string)
    | UpdateTaskStatus(taskId: string, status: string)
    | DispatchTasksUpdated

  /**
   * The calls `handleTaskStatusChange(taskId, status)` makes: archiving for
   * `rejected`, a status update for anything else, and in both cases the
   * `tasks-updated` event last.
   */
  function StatusChangeCalls(taskId: string, status: string): (calls: seq<Call>)
    ensures |calls| == 2 && calls[1] == DispatchTasksUpdated
    ensures calls[0].ArchiveTask? <==> status == "rejected"
    ensures calls[0].UpdateTaskStatus? <==> status != "rejected"
    ensures calls[0].UpdateTaskStatus? ==> calls[0].status == status
    ensures !calls[0].DispatchTasksUpdated? && calls[0].taskId == taskId
  {
    if status == "rejected" then
      [ArchiveTask(taskId), DispatchTasksUpdated]
    else
      [UpdateTaskStatus(taskId, status), DispatchTasksUpdated]
  }

  /** A rejected task is never updated in place, and any other status never archives. */
  lemma RejectionOnlyArchives(taskId: string, status: string)
    ensures status == "rejected" ==> forall c :: c in StatusChangeCalls(taskId, status) ==> !c.UpdateTaskStatus?
    ensures status != "rejected" ==> forall c :: c in StatusChangeCalls(taskId, status) ==> !c.ArchiveTask?
  {
  }

  /**
   * `handleTaskStatusChange(taskId, status)` run against the store. For any
   * status but `rejected` the store's status update runs and the calls
   * made are returned; the archiving of a rejected task is a call into
   * code that is not part of this model, so only the call is recorded.
   */
  method HandleTaskStatusChange(store: Store, taskId: string, status: string) returns (calls: seq<Call>)
    modifies store
    ensures calls == StatusChangeCalls(taskId, status)
    ensures status != "rejected" && FirstIndexWithId(old(store.GetTasks()), taskId).Some? ==>
              store.GetTasks() == WithStatus(old(store.GetTasks()), taskId, status)
    ensures status != "rejected" && FirstIndexWithId(old(store.GetTasks()), taskId).None? ==>
              store.taskSlot == old(store.taskSlot)
    ensures store.messageSlot == old(store.messageSlot)
  {
    if status == "rejected" {
      calls := [ArchiveTask(taskId)];
    } else {
      store.UpdateTaskStatus(taskId, status);
      calls := [UpdateTaskStatus(taskId, status)];
    }
    calls := calls + [DispatchTasksUpdated];
  }
}
