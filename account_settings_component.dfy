/**
 * The earlier task table component (`components/accountSettings.tsx`):
 * one task list, the same three filters, and a status selector whose
 * handler forwards the chosen value to the store without checking it.
 */
module AccountSettingsComponent {
  import opened Types
  import opened Storage
  import opened TaskFilters
  import opened AccountSettingsPage

  /**
   * Without the membership check, a status outside the five reaches the
   * store: once a task with the id exists, the stored list holds a task
   * whose status is not one of the known statuses.
   */
  lemma {:induction false} UnguardedUpdateStoresUnknownStatus(tasks: seq<Task>, taskId: string, status: string)
    requires FirstIndexWithId(tasks, taskId).Some?
    requires !IsTaskStatus(status)
    ensures !AllStatusesKnown(WithStatus(tasks, taskId, status))
  {
    var i := FirstIndexWithId(tasks, taskId).value;
    WithStatusChangesOnlyFirstMatch(tasks, taskId, status, i);
    assert WithStatus(tasks, taskId, status)[i].status == status;
  }

  /** The state of the component's `TaskTable`. */
  class TaskTable {
    var tasks: seq<Task>
    var filteredTasks: seq<Task>
    var domainFilter: string
    var statusFilter: string
    var typeFilter: string

    /** The filtered list holds what passes the three filters, taken from the task list. */
    ghost predicate Filtered()
      reads this
    {
      filteredTasks == KeepPassing(tasks, domainFilter, statusFilter, typeFilter)
    }

    /** The initial state: no tasks and every filter at `'all'`. */
    constructor()
      ensures tasks == [] && filteredTasks == []
      ensures domainFilter == AllValues && statusFilter == AllValues && typeFilter == AllValues
      ensures Filtered()
    {
      tasks := [];
      filteredTasks := [];
      domainFilter := AllValues;
      statusFilter := AllValues;
      typeFilter := AllValues;
    }

    /** `loadTasks()`: the task list becomes what the store holds. */
    method LoadTasks(store: Store)
      modifies this
      ensures tasks == store.GetTasks() && filteredTasks == old(filteredTasks)
      ensures domainFilter == old(domainFilter) && statusFilter == old(statusFilter) && typeFilter == old(typeFilter)
    {
      tasks := store.GetTasks();
    }

    /** `applyFilters()`: the filtered list is recomputed from the task list. */
    method ApplyFilters()
      modifies this
      ensures Filtered()
      ensures tasks == old(tasks)
      ensures domainFilter == old(domainFilter) && statusFilter == old(statusFilter) && typeFilter == old(typeFilter)
    {
      filteredTasks := FilterTasks(tasks, domainFilter, statusFilter, typeFilter);
    }

    /**
     * `handleStatusChange(taskId, newStatus)`: the status goes to the store
     * as it is, whatever its value; the list is reloaded and the filters are
     * applied again.
     */
    method HandleStatusChange(store: Store, taskId: string, newStatus: string)
      modifies this, store
      ensures FirstIndexWithId(old(store.GetTasks()), taskId).Some? ==>
                store.GetTasks() == WithStatus(old(store.GetTasks()), taskId, newStatus)
      ensures FirstIndexWithId(old(store.GetTasks()), taskId).None? ==> store.taskSlot == old(store.taskSlot)
      ensures store.messageSlot == old(store.messageSlot)
      ensures tasks == store.GetTasks() && Filtered()
      ensures domainFilter == old(domainFilter) && statusFilter == old(statusFilter) && typeFilter == old(typeFilter)
    {
      store.UpdateTaskStatus(taskId, newStatus);
      LoadTasks(store);
      ApplyFilters();
    }

    /**
     * The "`filtered` of `total` tasks" label: once the filters have been
     * applied, the shown count never exceeds the total.
     */
    method Counts() returns (shown: nat, total: nat)
      requires Filtered()
      ensures shown == |filteredTasks| && total == |tasks|
      ensures shown <= total
    {
      shown := |filteredTasks|;
      total := |tasks|;
    }
  }
}
