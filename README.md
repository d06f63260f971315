# Logistics AI agent hub: a Dafny model of the task store and its rules

This project models the core of the Logistics AI Agent hub, a Next.js app. Three
domain agents (gateway, risk management, operations) answer chat messages with
canned replies chosen by keyword. Task generation from a message is a stub that
yields no task, so tasks reach the store only through `addTask`. The model covers:

- **The store** (`utils/storage.ts`). It holds two collections in browser storage:
  - tasks, newest first, added with `unshift`;
  - chat messages, oldest first, added with `push`.
  It also provides a status update by task id, a per-domain message filter and the
  fixed table of the three domain configurations. The store is the class
  `Storage.Store`. It has one field per storage key. Each field is `None` while the
  key is unset.
- **The rules helpers** (`utils/ai.ts`). These are the description truncation, the
  keyword priority, and the quantity, date and recipient extractors. Each regular
  expression becomes a first-order matcher, and the leftmost match wins. The module
  also has the canned reply selector and the empty task generator.
- **The data model** (`types.ts`). The enumerations are datatypes, each with a name
  function and a parser. Task fields the source widens with `| string` stay strings,
  with membership predicates.
- **The task tables.** `pages/accountSettings.tsx` and `components/accountSettings.tsx`
  are classes over their component state. They share one filter composition,
  `TaskFilters.FilterTasks`.
- **The task card's actions and icons** (`components/TaskCard.tsx`).
- **The agent page** (`pages/logisticsAgent.tsx`). This covers its `?domain=`
  whitelist and its status-change routing.
- **The sign-in / sign-up form** (`pages/login.tsx`). This covers its validation
  chain and mode toggle.

Ids and timestamps are parameters (`nonce`, `timestamp`). The generated task id is
`"task-" + nonce` and the message id is `"msg-" + nonce`.

## Model

| member | source | states |
|---|---|---|
| Types.ParseDomain | my-app/src/app/types.ts:1 | a parsed domain has the given name; a string no domain has is rejected |
| Types.DomainsAreThree | my-app/src/app/types.ts:1 | `Domain` has exactly three values with pairwise different names |
| Types.ParseTaskType | my-app/src/app/types.ts:3 | a parsed task type has the given name; other strings are rejected |
| Types.ParseStatus | my-app/src/app/types.ts:5 | a parsed status has the given name; other strings are rejected |
| Types.EnumerationsRoundTrip | my-app/src/app/types.ts:1-5 | seven task types and five statuses; parsing a value's name gives the value back, for all three enumerations |
| Types.StatusNamesAreTheUnion | my-app/src/app/pages/accountSettings.tsx:89-91 | the page's `isTaskStatus` guard (`Types.IsTaskStatus`, the five-name membership test) holds exactly for the names of the `TaskStatus` values of `types.ts` |
| Types.StampKeepsDraft | my-app/src/app/types.ts:7-34 | a stored task is its draft plus an id and a timestamp; removing those gives the draft back |
| Seqs.Filter | my-app/src/app/utils/storage.ts:66 | `Array.prototype.filter`: an order-preserving subsequence holding exactly the elements that pass, each as many times as in the input |
| Storage.FindConfig | my-app/src/app/utils/storage.ts:81-83 | `find` returns the first entry with the id, or none when no entry has it |
| Storage.OneConfigPerDomain | my-app/src/app/utils/storage.ts:6-31 | each of the three domains has exactly one entry in the configuration table |
| Storage.GetDomainConfig | my-app/src/app/utils/storage.ts:81-83 | always finds an entry, and the entry is the table's one for that domain |
| Storage.FirstIndexWithId | my-app/src/app/utils/storage.ts:55-56 | `findIndex` with `===`: the first task whose id is that string, or none when no task has it |
| Storage.WithStatusChangesOnlyFirstMatch | my-app/src/app/utils/storage.ts:54-61 | an update changes only the status of the first task with the id; length, order, other tasks and other fields stay |
| Storage.WithStatusMissingId | my-app/src/app/utils/storage.ts:57-60 | with no task carrying the id, the list is unchanged |
| Storage.NumericIdNeverMatches | my-app/src/app/utils/storage.ts:56 | a task whose id is a number is never updated by a string id |
| Storage.OfDomain | my-app/src/app/utils/storage.ts:63-67 | the messages of one domain, in stored order, each as many times as it is stored, and no other message |
| Storage.Store.constructor | my-app/src/app/utils/storage.ts:33-36 | nothing is stored under either key at first |
| Storage.Store.GetTasks | my-app/src/app/utils/storage.ts:33-36 | the stored list, or the empty list when the key is unset |
| Storage.Store.SaveTasks | my-app/src/app/utils/storage.ts:38-40 | the task key holds the list and the message key is untouched |
| Storage.Store.AddTask | my-app/src/app/utils/storage.ts:42-52 | the returned task is the draft with the fresh id and timestamp, and the stored list becomes it followed by the old list |
| Storage.Store.UpdateTaskStatus | my-app/src/app/utils/storage.ts:54-61 | with a match, the list is written back with the first match's status set; with none, nothing is written |
| Storage.Store.GetMessages | my-app/src/app/utils/storage.ts:63-67 | with no domain, all stored messages; with one, an order-preserving subsequence holding exactly that domain's messages, each as many times as it is stored |
| Storage.Store.SaveMessage | my-app/src/app/utils/storage.ts:69-79 | the message gets the fresh id and timestamp and is appended at the tail; the task key is untouched |
| Storage.OrderingExample | my-app/src/app/utils/storage.ts:42-79 | two added tasks read back newest first, and two saved messages read back oldest first |
| Text.ToLower | my-app/src/app/utils/ai.ts:47 | `toLowerCase` on ASCII: same length, and each character lowered |
| Text.ToLowerIdempotent | my-app/src/app/utils/ai.ts:58 | lower-casing twice is lower-casing once |
| Text.Contains | my-app/src/app/utils/ai.ts:48 | `includes` holds exactly when the word occurs at some position |
| Text.DecimalRoundTrip | my-app/src/app/utils/ai.ts:42 | the decimal digits of a number read back as that number |
| Text.IntToString | my-app/src/app/pages/accountSettings.tsx:95 | `String(n)` for a safe integer: a minus sign exactly for negatives, then digits without a leading zero that read back as the magnitude |
| Ai.FirstMatch | my-app/src/app/utils/ai.ts:25 | the leftmost start position where the pattern matches, or none when there is no match |
| Ai.ExtractTaskDescription | my-app/src/app/utils/ai.ts:19-21 | never over 100 characters; short messages unchanged; long ones become their first 97 characters and `...` |
| Ai.ExtractQuantity | my-app/src/app/utils/ai.ts:40-44 | 0 without a digits-then-unit match; otherwise the value of the digits of the leftmost match |
| Ai.QuantityMatchReadsWholeNumber | my-app/src/app/utils/ai.ts:41 | the leftmost match starts at the beginning of a digit run, so the whole number is read |
| Ai.DateGroupShaped | my-app/src/app/utils/ai.ts:35 | a date group is a word, spaces and digits, or digits, a slash and digits |
| Ai.ExtractDate | my-app/src/app/utils/ai.ts:34-38 | `To be determined` without a match; otherwise the group of the leftmost match, which is date-shaped |
| Ai.EmailMatchShaped | my-app/src/app/utils/ai.ts:25 | an email match is local part, `@`, host, a dot and word characters |
| Ai.NameGroupShaped | my-app/src/app/utils/ai.ts:28 | a name group is one or two capitalised words |
| Ai.ExtractRecipient | my-app/src/app/utils/ai.ts:23-32 | the leftmost email match if any; else the leftmost name group; else `Not specified`; the result always has one of these shapes |
| Ai.DeterminePriority | my-app/src/app/utils/ai.ts:46-55 | high exactly when an urgency word occurs; low exactly when none does and a low-priority phrase does; otherwise medium |
| Ai.PriorityIgnoresCase | my-app/src/app/utils/ai.ts:47 | messages that agree up to case get the same priority |
| Ai.GenerateAIResponse | my-app/src/app/utils/ai.ts:57-89 | the reply is one of the domain's own replies; each keyword reply is given exactly when its test is the first one the lower-cased message passes |
| Ai.ResponseIgnoresCase | my-app/src/app/utils/ai.ts:58 | the reply depends on the message only through its lower-cased form |
| Ai.RepliesIdentifyDomain | my-app/src/app/utils/ai.ts:60-85 | no two domains share a reply |
| Ai.GenerateTaskFromMessage | my-app/src/app/utils/ai.ts:5-17 | yields no task for every input and touches no store |
| TaskFilters.Narrow | my-app/src/app/pages/accountSettings.tsx:70-80 | one filter step keeps an order-preserving subsequence holding exactly the tasks the filter admits, with their multiplicity |
| TaskFilters.KeepPassing | my-app/src/app/pages/accountSettings.tsx:67-83 | the single-pass reference: a subsequence holding exactly the tasks passing all three filters, with their multiplicity |
| TaskFilters.FilterTasks | my-app/src/app/pages/accountSettings.tsx:67-83 | the three filter steps in turn equal the single-pass reference and never lengthen the list |
| TaskFilters.NarrowChainIsOnePass | my-app/src/app/components/accountSettings.tsx:55-71 | filtering by domain, then status, then type keeps exactly what passes all three, in order |
| TaskFilters.NarrowCommutes | my-app/src/app/components/accountSettings.tsx:58-68 | any two filter steps give the same list in either order |
| TaskFilters.AllFiltersOff | my-app/src/app/pages/accountSettings.tsx:68-82 | with every filter at `all` the result is the source |
| AccountSettingsPage.WithStatusKeepsStatusesKnown | my-app/src/app/pages/accountSettings.tsx:93-97 | an update with one of the five statuses keeps every stored status among the five |
| AccountSettingsPage.IdString | my-app/src/app/pages/accountSettings.tsx:95 | `String(taskId)`: a string id unchanged; a numeric id as a minus sign exactly when negative, then the decimal digits of its magnitude without a leading zero |
| AccountSettingsPage.DisplayedStatus | my-app/src/app/pages/accountSettings.tsx:457 | the selector always shows one of the five statuses: the task's own if known, else `pending` |
| AccountSettingsPage.GetStatusColor | my-app/src/app/pages/accountSettings.tsx:157-167 | grey fallback for unknown statuses; grey exactly for unknown and `completed` |
| AccountSettingsPage.KnownStatusColorsDiffer | my-app/src/app/pages/accountSettings.tsx:157-163 | different known statuses get different badge classes |
| AccountSettingsPage.TaskTable.constructor | my-app/src/app/pages/accountSettings.tsx:28-35 | empty lists, the active tab, every filter at `all` |
| AccountSettingsPage.TaskTable.LoadTasks | my-app/src/app/pages/accountSettings.tsx:56-59 | the active list becomes the store's list and nothing else changes |
| AccountSettingsPage.TaskTable.ApplyFilters | my-app/src/app/pages/accountSettings.tsx:66-87 | both lists are filtered by the same composition, and neither filtered list is longer than its source |
| AccountSettingsPage.TaskTable.ChangeFilter | my-app/src/app/pages/accountSettings.tsx:52-54 | the chosen filter takes the value, the others stay, and the lists are filtered again |
| AccountSettingsPage.TaskTable.HandleStatusChange | my-app/src/app/pages/accountSettings.tsx:93-97 | an unknown status changes neither the store nor any list or filter; a known one updates the store under `String(taskId)`, reloads and re-filters; stored statuses stay known |
| AccountSettingsPage.TaskTable.HandleClearArchived | my-app/src/app/pages/accountSettings.tsx:99-103 | both archived lists in state become empty, the rest is kept, and the lists stay filtered |
| AccountSettingsPage.TaskTable.ShownTasks | my-app/src/app/pages/accountSettings.tsx:398-405 | once filtered, the rows are an order-preserving subsequence of the open tab's list holding exactly its tasks that pass every filter, with their multiplicity |
| AccountSettingsComponent.UnguardedUpdateStoresUnknownStatus | my-app/src/app/components/accountSettings.tsx:73-76 | without the membership check, an unknown status reaches the stored list |
| AccountSettingsComponent.TaskTable.constructor | my-app/src/app/components/accountSettings.tsx:27-31 | no tasks and every filter at `all` |
| AccountSettingsComponent.TaskTable.LoadTasks | my-app/src/app/components/accountSettings.tsx:50-53 | the task list becomes the store's list |
| AccountSettingsComponent.TaskTable.ApplyFilters | my-app/src/app/components/accountSettings.tsx:55-71 | the filtered list is the filter composition of the task list |
| AccountSettingsComponent.TaskTable.HandleStatusChange | my-app/src/app/components/accountSettings.tsx:73-76 | the status goes to the store unchecked, then the list is reloaded and filtered |
| AccountSettingsComponent.TaskTable.Counts | my-app/src/app/components/accountSettings.tsx:189-191 | once the filters are applied, the shown count never exceeds the total |
| TaskCard.IconFor | my-app/src/app/components/TaskCard.tsx:39 | the table's icon, or Mail for a type missing from the table |
| TaskCard.IconsCoverTaskTypes | my-app/src/app/components/TaskCard.tsx:14-22 | the icon table covers exactly the seven task types; Mail means `email` or an unknown type |
| TaskCard.IconsDistinguishTypes | my-app/src/app/components/TaskCard.tsx:14-22 | different task types get different icons |
| TaskCard.OfferedRequests | my-app/src/app/components/TaskCard.tsx:86-116 | pending offers approve then reject, approved offers complete, others nothing; every request carries the card's task id |
| TaskCard.OfferedRequestsAdvance | my-app/src/app/components/TaskCard.tsx:86-116 | every offered action moves the task to a later review stage |
| TaskCard.NoActionsOutsidePendingAndApproved | my-app/src/app/components/TaskCard.tsx:86-116 | in-review, completed and rejected tasks offer no action |
| LogisticsAgent.SelectedDomainAfterMount | my-app/src/app/pages/logisticsAgent.tsx:22-26 | the parameter selects a domain only when it is one of the three names; otherwise the selection stays |
| LogisticsAgent.MountSelection | my-app/src/app/pages/logisticsAgent.tsx:15-26 | a fresh page leaves `gateway` only for a parameter naming another domain, and every domain is reachable by its name |
| LogisticsAgent.StatusChangeCalls | my-app/src/app/pages/logisticsAgent.tsx:29-36 | rejection archives, any other status updates, and `tasks-updated` is dispatched last in both cases |
| LogisticsAgent.RejectionOnlyArchives | my-app/src/app/pages/logisticsAgent.tsx:30-33 | a rejection never updates in place, and no other status archives |
| LogisticsAgent.HandleTaskStatusChange | my-app/src/app/pages/logisticsAgent.tsx:29-36 | makes those calls, and for a status other than `rejected` applies the store's status update |
| Login.ValidationError | my-app/src/app/pages/login.tsx:26-48 | passes exactly with email and password present, and in sign-up mode also a name, matching passwords and at least 8 characters |
| Login.MissingFieldsReportedFirst | my-app/src/app/pages/login.tsx:26-30 | a missing email or password is reported first in both modes |
| Login.SignInChecksPresenceOnly | my-app/src/app/pages/login.tsx:32 | sign-in ignores name and confirmation and never reports a sign-up message |
| Login.SignUpChecksInOrder | my-app/src/app/pages/login.tsx:33-47 | each sign-up message means every earlier check passed and its own failed |
| Login.LoginForm.constructor | my-app/src/app/pages/login.tsx:12-18 | sign-in mode, empty fields, not loading |
| Login.LoginForm.Validate | my-app/src/app/pages/login.tsx:20-48 | proceeds exactly when validation passes; a failure shows its message and stops loading before any auth call |
| Login.LoginForm.ToggleMode | my-app/src/app/pages/login.tsx:200-205 | flips the mode, clears the error and both passwords, keeps email and name; the next submit fails the first check |

## Left out

- Browser storage and JSON encoding. Each key is an optional list. A parse failure is not modelled.
- Id and timestamp generation (`Date.now`, `Math.random`, `toISOString`). These are parameters, and nothing here claims they are unique.
- `archiveTask`, `getArchivedTasks`, `clearArchivedTasks` and `clearMessages`. They are imported but not defined in `utils/storage.ts`, so they are not part of this model:
  - an archive is only recorded as a call;
  - the archived list is page state that nothing fills;
  - clearing the archived storage is not modelled beyond resetting the page state.
- React effects and window event listeners. They are folded into the methods that trigger them: `ChangeFilter` and `HandleStatusChange` re-apply the filters, and `HandleStatusChange` reloads the list. `LoadTasks` alone leaves the filtered lists as they were until `ApplyFilters` runs.
- The `storage` and `tasks-updated` listeners, the mount effect's `clearMessages`, the dropdown state and the tab switch.
- The Supabase calls and router navigation after validation (`pages/login.tsx:50-96`). The form's input setters are not modelled either.
- CSV export: Blob, object URLs, DOM anchors and locale dates.
- Styling classes other than the status badge, and `formatDistanceToNow`.
- Task fields that are only displayed: the response and account fields, and the `[key: string]: any` part of `details`. The response and account fields are one string map. The `details` index signature is a string map.
- Text.ToLower: lower-cases ASCII letters only. JavaScript's `toLowerCase` and the `/i` flag also fold other letters.
- Ai.ExtractQuantity: returns the exact decimal value of the digits. `parseInt` loses precision beyond 2^53.
- Ai.ExtractTaskDescription: lengths count Unicode characters, not UTF-16 code units, so the two differ for astral characters.
- Login.ValidationError: the length check has the same caveat of Unicode characters versus UTF-16 code units.
- Ai.GenerateAIResponse: takes a `Domain`, so the final fallback reply (`utils/ai.ts:89`) cannot be reached and is not modelled.
- `AccountSettingsComponent.TaskTable.HandleStatusChange` takes a string id, as its signature declares. A numeric `task.id` passed at run time is not modelled.
- `LogisticsAgent.HandleTaskStatusChange` takes a string status. The handler's `status: any` could be another value.
- TaskCard.IconFor: looks the type up in the table's own keys. Inherited object properties such as `toString` are not modelled.
- `Task.id` as a number is modelled as an integer within `Number.MAX_SAFE_INTEGER` of zero. Fractional numbers, larger magnitudes, `NaN` and the infinities are not modelled.
- Text.IntToString: writes the exact decimal of any integer. JavaScript's `String` agrees only up to 2^53 in magnitude; beyond that it rounds, and from 10^21 it uses exponent notation. The model applies it only to safe integers.
- AccountSettingsPage.IdString: covers only numeric ids within `Number.MAX_SAFE_INTEGER` of zero, where `String` writes the exact decimal.
