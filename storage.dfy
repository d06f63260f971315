/**
 * The browser-storage layer: two independently keyed collections, tasks
 * (newest first) and chat messages (oldest first), each read in full,
 * changed in memory and written back in full; and the fixed table of
 * domain configurations.
 */
module Storage {
  import opened Wrappers
  import opened Seqs
  import opened Types

  /** The three domain configurations, one per domain, in display order. */
  const DomainConfigs: seq<DomainConfig> := [
    DomainConfig(Gateway, "Logistics AI agent",
      "Handle outreach, follow-ups, and deal management", "bg-blue-500", "\U{1F4BC}",
      "You are a logistics AI assistant. Help with risk-management and operation domains."),
    DomainConfig(RiskManagement, "Risk Management AI Agent",
      "Manage support tickets and customer communications", "bg-green-500", "\U{1F3A7}",
      "You are a customer service AI assistant. Help with support responses, issue resolution, and customer satisfaction."),
    DomainConfig(Operations, "Operations AI Agent",
      "Coordinate schedules, reorders, and logistics", "bg-purple-500", "\U{2699}\U{FE0F}",
      "You are an operations AI assistant. Help with scheduling, inventory reorders, logistics coordination, and operational efficiency.")
  ]

  /** `table.find(c => c.id === d)`: the first entry for `d`. */
  function FindConfig(table: seq<DomainConfig>, d: Domain): (r: Option<DomainConfig>)
    ensures r.Some? ==> exists i :: 0 <= i < |table| && table[i] == r.value && r.value.id == d &&
                                    forall j :: 0 <= j < i ==> table[j].id != d
    ensures r.None? ==> forall i :: 0 <= i < |table| ==> table[i].id != d
    decreases |table|
  {
    if table == [] then None
    else if table[0].id == d then Some(table[0])
    else
      var rest := FindConfig(table[1..], d);
      if rest.Some? then
        var i :| 0 <= i < |table[1..]| && table[1..][i] == rest.value && rest.value.id == d &&
                 forall j :: 0 <= j < i ==> table[1..][j].id != d;
        assert table[i + 1] == rest.value;
        rest
      else
        rest
  }

  /** Each domain has exactly one configuration entry. */
  lemma OneConfigPerDomain(d: Domain)
    ensures exists i :: 0 <= i < |DomainConfigs| && DomainConfigs[i].id == d
    ensures forall i, j ::
              (0 <= i < |DomainConfigs| && 0 <= j < |DomainConfigs| &&
               DomainConfigs[i].id == d && DomainConfigs[j].id == d) ==> i == j
  {
    match d
    case Gateway => assert DomainConfigs[0].id == d;
    case RiskManagement => assert DomainConfigs[1].id == d;
    case Operations => assert DomainConfigs[2].id == d;
  }

  /** `getDomainConfig(d)`: always finds the one entry of the table whose id is `d`. */
  function GetDomainConfig(d: Domain): (r: Option<DomainConfig>)
    ensures r.Some? && r.value.id == d && r.value in DomainConfigs
  {
    OneConfigPerDomain(d);
    FindConfig(DomainConfigs, d)
  }

  /** The index of the first task whose id is strictly equal (`===`) to the string `taskId`. */
  function FirstIndexWithId(tasks: seq<Task>, taskId: string): (r: Option<nat>)
    ensures r.Some? ==> r.value < |tasks| && tasks[r.value].id == Text(taskId)
    ensures r.Some? ==> forall j :: 0 <= j < r.value ==> tasks[j].id != Text(taskId)
    ensures r.None? ==> forall j :: 0 <= j < |tasks| ==> tasks[j].id != Text(taskId)
    decreases |tasks|
  {
    if tasks == [] then None
    else if tasks[0].id == Text(taskId) then Some(0)
    else
      match FirstIndexWithId(tasks[1..], taskId)
      case None => None
      case Some(k) => Some(k + 1)
  }

  /** The task list after the first task with id `taskId` has had its status set to `status`. */
  function WithStatus(tasks: seq<Task>, taskId: string, status: string): seq<Task>
  {
    match FirstIndexWithId(tasks, taskId)
    case None => tasks
    case Some(i) => tasks[i := tasks[i].(status := status)]
  }

  /**
   * A status update changes the status of the first task with the id and
   * nothing else: the length, the order, every other task and every other
   * field of the updated task stay as they were.
   */
  lemma WithStatusChangesOnlyFirstMatch(tasks: seq<Task>, taskId: string, status: string, i: nat)
    requires i < |tasks| && tasks[i].id == Text(taskId)
    requires forall j :: 0 <= j < i ==> tasks[j].id != Text(taskId)
    ensures |WithStatus(tasks, taskId, status)| == |tasks|
    ensures WithStatus(tasks, taskId, status)[i] == tasks[i].(status := status)
    ensures forall j :: 0 <= j < |tasks| && j != i ==> WithStatus(tasks, taskId, status)[j] == tasks[j]
  {
  }

  /** With no task carrying the id, a status update leaves the list as it was. */
  lemma WithStatusMissingId(tasks: seq<Task>, taskId: string, status: string)
    requires forall j :: 0 <= j < |tasks| ==> tasks[j].id != Text(taskId)
    ensures WithStatus(tasks, taskId, status) == tasks
  {
  }

  /**
   * Ids are compared with `===`, so a task whose id is a number is never
   * found by a string id, not even by its own decimal form.
   */
  lemma NumericIdNeverMatches(tasks: seq<Task>, taskId: string, status: string, k: nat)
    requires k < |tasks| && tasks[k].id.Number?
    ensures WithStatus(tasks, taskId, status)[k] == tasks[k]
    ensures |WithStatus(tasks, taskId, status)| == |tasks|
  {
  }

  /** The messages of one domain, in stored order. */
  function OfDomain(messages: seq<ChatMessage>, d: Domain): (r: seq<ChatMessage>)
    ensures IsSubsequence(r, messages)
    ensures forall i :: 0 <= i < |r| ==> r[i].domain == d
    ensures forall i :: 0 <= i < |messages| && messages[i].domain == d ==> messages[i] in r
    ensures forall m :: multiset(r)[m] == if m.domain == d then multiset(messages)[m] else 0
  {
    Filter(messages, (m: ChatMessage) => m.domain == d)
  }

  /** The browser's key-value storage, restricted to the two keys the store uses. */
  class Store {
    /** What is stored under the tasks key; None when nothing is. */
    var taskSlot: Option<seq<Task>>
    /** What is stored under the messages key; None when nothing is. */
    var messageSlot: Option<seq<ChatMessage>>

    /** Empty storage. */
    constructor ()
      ensures taskSlot == None && messageSlot == None
    {
      taskSlot := None;
      messageSlot := None;
    }

    /** `getTasks()`: the stored list, or the empty list when nothing is stored. */
    function GetTasks(): (r: seq<Task>)
      reads this
      ensures taskSlot.None? ==> r == []
      ensures taskSlot.Some? ==> r == taskSlot.value
    {
      if taskSlot.Some? then taskSlot.value else []
    }

    /** `saveTasks(tasks)`: overwrites the tasks key and nothing else. */
    method SaveTasks(tasks: seq<Task>)
      modifies this
      ensures taskSlot == Some(tasks)
      ensures messageSlot == old(messageSlot)
    {
      taskSlot := Some(tasks);
    }

    /**
     * `addTask(draft)`: stamps the draft with the id `"task-" + nonce` and
     * the given timestamp, puts it in front of the stored tasks and returns it.
     */
    method AddTask(draft: TaskDraft, nonce: string, timestamp: string) returns (t: Task)
      modifies this
      ensures t == Stamp(draft, Text("task-" + nonce), timestamp)
      ensures GetTasks() == [t] + old(GetTasks())
      ensures taskSlot.Some? && messageSlot == old(messageSlot)
    {
      var tasks := GetTasks();
      t := Stamp(draft, Text("task-" + nonce), timestamp);
      tasks := [t] + tasks;
      SaveTasks(tasks);
    }

    /**
     * `updateTaskStatus(taskId, status)`: sets the status of the first task
     * whose id is `taskId` and writes the list back; when there is no such
     * task, nothing is written.
     */
    method UpdateTaskStatus(taskId: string, status: string)
      modifies this
      ensures FirstIndexWithId(old(GetTasks()), taskId).None? ==> taskSlot == old(taskSlot)
      ensures FirstIndexWithId(old(GetTasks()), taskId).Some? ==>
                taskSlot == Some(WithStatus(old(GetTasks()), taskId, status))
      ensures messageSlot == old(messageSlot)
    {
      var tasks := GetTasks();
      var taskIndex := FirstIndexWithId(tasks, taskId);
      if taskIndex.Some? {
        var i := taskIndex.value;
        tasks := tasks[i := tasks[i].(status := status)];
        SaveTasks(tasks);
      }
    }

    /** The stored message list, or the empty list when nothing is stored. */
    function StoredMessages(): seq<ChatMessage>
      reads this
    {
      if messageSlot.Some? then messageSlot.value else []
    }

    /**
     * `getMessages(domain)`: with a domain, exactly the stored messages of
     * that domain, in stored order; without one, every stored message.
     */
    function GetMessages(domain: Option<Domain>): (r: seq<ChatMessage>)
      reads this
      ensures messageSlot.None? ==> r == []
      ensures domain.None? ==> r == StoredMessages()
      ensures domain.Some? ==> IsSubsequence(r, StoredMessages())
      ensures domain.Some? ==> forall i :: 0 <= i < |r| ==> r[i].domain == domain.value
      ensures domain.Some? ==> forall i :: 0 <= i < |StoredMessages()| && StoredMessages()[i].domain == domain.value ==>
                                 StoredMessages()[i] in r
      ensures domain.Some? ==> forall m :: multiset(r)[m] ==
                                 if m.domain == domain.value then multiset(StoredMessages())[m] else 0
    {
      if domain.Some? then OfDomain(StoredMessages(), domain.value) else StoredMessages()
    }

    /**
     * `saveMessage(draft)`: stamps the draft with the id `"msg-" + nonce`
     * and the given timestamp, appends it after the stored messages and
     * returns it.
     */
    method SaveMessage(draft: MessageDraft, nonce: string, timestamp: string) returns (m: ChatMessage)
      modifies this
      ensures m == ChatMessage("msg-" + nonce, draft.domain, draft.role, draft.content, timestamp)
      ensures GetMessages(None) == old(GetMessages(None)) + [m]
      ensures messageSlot.Some? && taskSlot == old(taskSlot)
    {
      var messages := StoredMessages();
      m := ChatMessage("msg-" + nonce, draft.domain, draft.role, draft.content, timestamp);
      messages := messages + [m];
      messageSlot := Some(messages);
    }
  }

  /**
   * Tasks are kept newest first and messages oldest first: two additions
   * leave the second task in front and the second message at the back.
   */
  method OrderingExample(draft: TaskDraft, message: MessageDraft)
  {
    var store := new Store();
    var first := store.AddTask(draft, "1", "t1");
    var second := store.AddTask(draft, "2", "t2");
    assert store.GetTasks() == [second, first];
    var m1 := store.SaveMessage(message, "1", "t1");
    var m2 := store.SaveMessage(message, "2", "t2");
    assert store.GetMessages(None) == [m1, m2];
    assert store.GetTasks() == [second, first];
  }
}
