/**
 * The task table page (`pages/accountSettings.tsx`): the active and the
 * archived task lists held in component state, the three filters over them,
 * the status selector guarded by `isTaskStatus`, the clear-archived button
 * and the status badge colours.
 */
module AccountSettingsPage {
  import opened Seqs
  import opened Text
  import opened Types
  import opened Storage
  import opened TaskFilters

  /** The two tabs of the table. */
  datatype View = Active | Archived

  /** Every task in the list carries one of the five known statuses. */
  predicate AllStatusesKnown(tasks: seq<Task>)
  {
    forall i :: 0 <= i < |tasks| ==> IsTaskStatus(tasks[i].status)
  }

  /**
   * A status update with a known status keeps every status in the list
   * known: the updated task gets the new status, all others keep theirs.
   */
  lemma WithStatusKeepsStatusesKnown(tasks: seq<Task>, taskId: string, status: string)
    requires IsTaskStatus(status) && AllStatusesKnown(tasks)
    ensures AllStatusesKnown(WithStatus(tasks, taskId, status))
  {
  }

  /**
   * `String(taskId)`: a string id as it is, a numeric id in its shortest
   * decimal form (no leading zero), with a leading minus sign when it is
   * negative.
   */
  function IdString(id: TaskId): (s: string)
    ensures id.Text? ==> s == id.text
    ensures id.Number? && id.number >= 0 ==>
              (forall k :: 0 <= k < |s| ==> IsDigit(s[k])) && DecimalValue(s) == id.number
    ensures id.Number? ==> (id.number < 0 <==> (|s| > 0 && s[0] == '-'))
    ensures id.Number? && id.number < 0 ==>
              (forall k :: 1 <= k < |s| ==> IsDigit(s[k])) && DecimalValue(s[1..]) == -id.number
    ensures id.Number? && id.number >= 0 ==> |s| > 0 && (|s| > 1 ==> s[0] != '0')
    ensures id.Number? && id.number < 0 ==> |s| > 1 && (|s| > 2 ==> s[1] != '0')
  {
    match id
    case Text(text) => text
    case Number(n) => IntToString(n)
  }

  /**
   * The value the status selector of a row shows: the task's status when
   * it is one of the five, `'pending'` otherwise.
   */
  function DisplayedStatus(status: string): (r: string)
    ensures IsTaskStatus(r)
    ensures IsTaskStatus(status) ==> r == status
    ensures !IsTaskStatus(status) ==> r == "pending"
  {
    if IsTaskStatus(status) then status else "pending"
  }

  /** The badge class of the grey palette, also the class of unknown statuses. */
  const GreyBadge := "bg-gray-500/10 text-gray-700 border-gray-500/20"

  /** The `statusColors` table. */
  function StatusColor(s: TaskStatus): string
  {
    match s
    case Pending => "bg-yellow-500/10 text-yellow-700 border-yellow-500/20"
    case InReview => "bg-blue-500/10 text-blue-700 border-blue-500/20"
    case Approved => "bg-green-500/10 text-green-700 border-green-500/20"
    case Completed => GreyBadge
    case Rejected => "bg-red-500/10 text-red-700 border-red-500/20"
  }

  /**
   * `getStatusColor(status)`: the table entry of a known status, the grey
   * fallback for anything else. The grey class is shared by `completed`
   * and the fallback, so only those two statuses look alike.
   */
  function GetStatusColor(status: string): (c: string)
    ensures !IsTaskStatus(status) ==> c == GreyBadge
    ensures IsTaskStatus(status) ==> c == StatusColor(ParseStatus(status).value)
    ensures c == GreyBadge <==> (!IsTaskStatus(status) || status == "completed")
  {
    StatusNamesAreTheUnion(status);
    match ParseStatus(status)
    case None => GreyBadge
    case Some(s) => StatusColor(s)
  }

  /** Two different known statuses get different badges. */
  lemma KnownStatusColorsDiffer(s1: string, s2: string)
    requires IsTaskStatus(s1) && IsTaskStatus(s2) && s1 != s2
    ensures GetStatusColor(s1) != GetStatusColor(s2)
  {
    StatusNamesAreTheUnion(s1);
    StatusNamesAreTheUnion(s2);
    var t1 := ParseStatus(s1).value;
    var t2 := ParseStatus(s2).value;
    assert t1 != t2 by {
      assert StatusName(t1) == s1 && StatusName(t2) == s2;
    }
  }

  /** The state of the `TaskTable` component. */
  class TaskTable {
    var tasks: seq<Task>
    var archivedTasks: seq<Task>
    var filteredTasks: seq<Task>
    var filteredArchivedTasks: seq<Task>
    var view: View
    var domainFilter: string
    var statusFilter: string
    var typeFilter: string

    /** Both filtered lists hold what passes the three filters, taken from their source. */
    ghost predicate Filtered()
      reads this
    {
      filteredTasks == KeepPassing(tasks, domainFilter, statusFilter, typeFilter) &&
      filteredArchivedTasks == KeepPassing(archivedTasks, domainFilter, statusFilter, typeFilter)
    }

    /** The initial state: empty lists, the active tab, every filter at `'all'`. */
    constructor()
      ensures tasks == [] && archivedTasks == [] && filteredTasks == [] && filteredArchivedTasks == []
      ensures view == Active
      ensures domainFilter == AllValues && statusFilter == AllValues && typeFilter == AllValues
      ensures Filtered()
    {
      tasks := [];
      archivedTasks := [];
      filteredTasks := [];
      filteredArchivedTasks := [];
      view := Active;
      domainFilter := AllValues;
      statusFilter := AllValues;
      typeFilter := AllValues;
    }

    /** `loadTasks()`: the active list becomes what the store holds. */
    method LoadTasks(store: Store)
      modifies this
      ensures tasks == store.GetTasks()
      ensures archivedTasks == old(archivedTasks) && filteredTasks == old(filteredTasks)
      ensures filteredArchivedTasks == old(filteredArchivedTasks) && view == old(view)
      ensures domainFilter == old(domainFilter) && statusFilter == old(statusFilter) && typeFilter == old(typeFilter)
    {
      tasks := store.GetTasks();
    }

    /**
     * `applyFilters()`: the same filter composition applied to the active
     * and the archived list; each filtered list is no longer than its source.
     */
    method ApplyFilters()
      modifies this
      ensures Filtered()
      ensures |filteredTasks| <= |tasks| && |filteredArchivedTasks| <= |archivedTasks|
      ensures tasks == old(tasks) && archivedTasks == old(archivedTasks) && view == old(view)
      ensures domainFilter == old(domainFilter) && statusFilter == old(statusFilter) && typeFilter == old(typeFilter)
    {
      filteredTasks := FilterTasks(tasks, domainFilter, statusFilter, typeFilter);
      filteredArchivedTasks := FilterTasks(archivedTasks, domainFilter, statusFilter, typeFilter);
    }

    /**
     * One of the three filter selects changes its value; the effect that
     * watches the filters then applies them again.
     */
    method ChangeFilter(f: Field, value: string)
      modifies this
      ensures f == DomainField ==> domainFilter == value
      ensures f != DomainField ==> domainFilter == old(domainFilter)
      ensures f == StatusField ==> statusFilter == value
      ensures f != StatusField ==> statusFilter == old(statusFilter)
      ensures f == TypeField ==> typeFilter == value
      ensures f != TypeField ==> typeFilter == old(typeFilter)
      ensures tasks == old(tasks) && archivedTasks == old(archivedTasks) && view == old(view)
      ensures Filtered()
    {
      match f {
        case DomainField => domainFilter := value;
        case StatusField => statusFilter := value;
        case TypeField => typeFilter := value;
      }
      ApplyFilters();
    }

    /**
     * `handleStatusChange(taskId, newStatus)`: a status outside the five
     * is ignored and nothing changes; otherwise the store updates the task
     * whose id is `String(taskId)`, the active list is reloaded and the
     * filters are applied again. A store whose statuses are all known keeps
     * them all known.
     */
    method HandleStatusChange(store: Store, taskId: TaskId, newStatus: string)
      modifies this, store
      ensures !IsTaskStatus(newStatus) ==>
                store.taskSlot == old(store.taskSlot) && tasks == old(tasks) && filteredTasks == old(filteredTasks) &&
                filteredArchivedTasks == old(filteredArchivedTasks)
      ensures IsTaskStatus(newStatus) ==> tasks == store.GetTasks() && Filtered()
      ensures IsTaskStatus(newStatus) && FirstIndexWithId(old(store.GetTasks()), IdString(taskId)).Some? ==>
                store.GetTasks() == WithStatus(old(store.GetTasks()), IdString(taskId), newStatus)
      ensures FirstIndexWithId(old(store.GetTasks()), IdString(taskId)).None? ==> store.taskSlot == old(store.taskSlot)
      ensures AllStatusesKnown(old(store.GetTasks())) ==> AllStatusesKnown(store.GetTasks())
      ensures store.messageSlot == old(store.messageSlot)
      ensures archivedTasks == old(archivedTasks) && view == old(view)
      ensures domainFilter == old(domainFilter) && statusFilter == old(statusFilter) && typeFilter == old(typeFilter)
    {
      if !IsTaskStatus(newStatus) {
        return;
      }
      ghost var before := store.GetTasks();
      store.UpdateTaskStatus(IdString(taskId), newStatus);
      if AllStatusesKnown(before) {
        WithStatusKeepsStatusesKnown(before, IdString(taskId), newStatus);
      }
      LoadTasks(store);
      ApplyFilters();
    }

    /**
     * `handleClearArchived()`: both archived lists held in state become
     * empty; the active side is untouched and the lists stay filtered.
     */
    method HandleClearArchived()
      modifies this
      ensures archivedTasks == [] && filteredArchivedTasks == []
      ensures tasks == old(tasks) && filteredTasks == old(filteredTasks) && view == old(view)
      ensures domainFilter == old(domainFilter) && statusFilter == old(statusFilter) && typeFilter == old(typeFilter)
      ensures old(Filtered()) ==> Filtered()
    {
      archivedTasks := [];
      filteredArchivedTasks := [];
    }

    /**
     * The list the table body shows: the filtered list of the open tab. Once
     * the lists are filtered, the rows are exactly the tasks of that tab that
     * pass every filter, in the tab's order and with their multiplicity.
     */
    function ShownTasks(): (r: seq<Task>)
      reads this
      ensures Filtered() ==> IsSubsequence(r, if view == Archived then archivedTasks else tasks)
      ensures Filtered() ==>
                forall t :: multiset(r)[t] ==
                  (if Passes(t, domainFilter, statusFilter, typeFilter)
                   then multiset(if view == Archived then archivedTasks else tasks)[t]
                   else 0)
    {
      if view == Archived then filteredArchivedTasks else filteredTasks
    }
  }
}
