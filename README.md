# TaskTacker task logic in Dafny

A model of the logic of a small to-do application. Users create, edit, complete, filter
and delete tasks. Each task has a category (work, personal, health) and a priority
(low, medium, high). The model covers four parts of the source:

- the task row and the two validation schemas (`shared/schema.ts`);
- the filtered list and the summary counts of the tasks page (`client/src/pages/tasks.tsx`);
- the per-category counts of the sidebar (`client/src/components/sidebar.tsx`);
- one rendered task (`client/src/components/task-item.tsx`): its badge helpers, the updates
  it sends, and its edit state.

Files:

- `wrappers.dfy` (`Wrappers`): `Option` and `Result`.
- `text.dfy` (`Text`): ASCII lower- and upper-casing, and substring search (`includes`).
- `schema.dfy` (`Schema`):
  - the closed `Category` and `Priority` enums and their spellings;
  - the client payload `RawTask`, in which every key may be missing;
  - `ParseInsert` and `ParseUpdate`, which return the parsed payload or the set of fields
    that broke their rule;
  - the stored `Task` row, `Create`, and the partial update `ApplyUpdate`.
- `tasks_page.dfy` (`TasksPage`): `FilterTasks` (`filteredTasks`), `ComputeStats` (`stats`)
  and their lemmas.
- `sidebar.dfy` (`Sidebar`): `CategoryStats` (`getCategoryStats`) and its lemmas.
- `task_item.dfy` (`TaskItem`):
  - `PriorityColor`, `CategoryColor` and `PriorityLabel`;
  - the payloads sent by toggle and save;
  - the class `Controller`, which holds `isEditing`, `editData` and the mutations the item
    has sent. Each mutation's outcome is a `bool` parameter `ok`.

The derivations are pure functions because the source computes them with `Array.filter`,
`map` and `.length`. The item's state changes step by step through React's setters, so
it is a class. Its methods say exactly what the new state is. Each method also keeps the
invariant `Controller.Valid()`: every mutation sent targets the item's own task, and there
are never more logged failures than mutations sent.

## Behaviour worth noting

The model keeps each of these behaviours of the code.

- **Cancel.** Cancel, and closing the edit dialog, only sets `isEditing` to false
  (task-item.tsx:160,187). The draft is not discarded. It is filled from the task once,
  when the item mounts (task-item.tsx:17-20), and is not filled again when the editor
  opens. So reopening the editor shows the text typed before the cancel.
  `Controller.Cancel` and `Controller.OpenEditor` keep `editData` unchanged.
- **`completed` on insert.** The insert schema is derived from the table with only `id`
  and `createdAt` omitted (schema.ts:16-18). So an insert payload may carry an optional
  `completed`. When it is absent, storage stores false (schema.ts:12).
- **Mutation failures.** When a save, toggle or delete fails, the component itself only
  writes the failure to the console (task-item.tsx:31-33,43-45,51-53). The model appends
  the message to `Controller.log`.

## Model

| member | source | states |
|---|---|---|
| Schema.ParseCategory | shared/schema.ts:21 | a category string parses exactly when it is "work", "personal" or "health", and the parsed enum is spelled as the input |
| Schema.ParsePriority | shared/schema.ts:22 | a priority string parses exactly when it is "low", "medium" or "high", and the parsed enum is spelled as the input |
| Schema.CategoryRoundTrip | shared/schema.ts:21 | every category's name is in the enum, and parsing the name gives the category back |
| Schema.PriorityRoundTrip | shared/schema.ts:22 | every priority's name is in the enum, and parsing the name gives the priority back |
| Schema.ParseInsert | shared/schema.ts:16-25 | a payload is accepted iff the title is present and non-empty, the category is in its enum and the priority is in its enum. A rejection names exactly the failing fields. An acceptance keeps every value given |
| Schema.ParseUpdate | shared/schema.ts:27-29 | an update is accepted iff every field that is present passes its insert rule. A rejection names exactly the failing fields. An acceptance keeps each field's presence and value, including the optional `completed` |
| Schema.EmptyTitleRejected | shared/schema.ts:20 | a payload whose title is "" is rejected by both schemas, with the title among the failing fields |
| Schema.OptionalFieldsNeverReject | shared/schema.ts:23-24 | replacing `description` and `dueDate` by any values, or removing them, never changes whether either schema accepts |
| Schema.ServerFieldsIgnored | shared/schema.ts:16-18 | `id` and `createdAt` in a payload are stripped: both schemas parse it exactly as without them |
| Schema.InsertImpliesUpdate | shared/schema.ts:27 | every payload the insert schema accepts is accepted by the update schema, with every field present and equal |
| Schema.Create | shared/schema.ts:5-14 | the stored row takes `id` and `createdAt` from storage; `completed` is true only when the payload said true |
| Schema.CreateRoundTrip | shared/schema.ts:5-25 | reading back a row created from an accepted payload gives the payload's title, description, category, priority and due date. Its category and priority are in their enums, its title is non-empty, and `completed` is false when the payload omitted it |
| Schema.ApplyUpdate | shared/schema.ts:27-29 | a partial update never changes `id` or `createdAt`. Each field present in the update replaces the stored value, a category or priority being stored as its name. Each absent field keeps its stored value |
| Schema.UpdateIdempotent | shared/schema.ts:27-29 | applying the same update twice gives the same row as applying it once |
| Text.Lower | client/src/pages/tasks.tsx:18-19 | `toLowerCase` keeps the length, folds each character, and leaves no upper-case ASCII letter |
| Text.Upper | client/src/components/task-item.tsx:157 | `toUpperCase` keeps the length, folds each character, and leaves no lower-case ASCII letter |
| Text.Contains | client/src/pages/tasks.tsx:18-19 | `includes` finds the needle only when it fits in the haystack. It always finds the empty string and the haystack itself |
| TasksPage.MatchesSearch | client/src/pages/tasks.tsx:18-19 | the empty query matches. A query found in the lower-cased title matches, and so does one found in the lower-cased description when there is one. For a task without a description, matching is exactly a hit in the title |
| TasksPage.Keep | client/src/pages/tasks.tsx:21-24 | a kept task always matches the search. "active" keeps only unfinished tasks and "completed" only finished ones. A matching task whose status fits the filter is always kept |
| TasksPage.SearchMissExcluded | client/src/pages/tasks.tsx:17-23 | a task whose lower-cased title and lower-cased description (when present) both lack the lower-cased query does not match, and is in no filtered list under any status filter |
| TasksPage.FilterTasks | client/src/pages/tasks.tsx:17-25 | a task is in the filtered list iff it is in the collection and passes the status filter and the search. The list is never longer than the collection |
| TasksPage.FilterIsSubsequence | client/src/pages/tasks.tsx:17 | the filtered list is a subsequence of the collection: kept tasks appear at strictly increasing positions |
| TasksPage.EmptyQueryMatchesEveryTask | client/src/pages/tasks.tsx:18-19 | the empty query matches every task |
| TasksPage.AllWithEmptyQueryKeepsEverything | client/src/pages/tasks.tsx:17-21 | with filter "all" and an empty query, the filtered list is the whole collection, in order |
| TasksPage.SearchIgnoresQueryCase | client/src/pages/tasks.tsx:18-19 | upper-casing the query never changes the filtered list |
| TasksPage.ActiveAndCompletedPartitionAll | client/src/pages/tasks.tsx:21-23 | for one query, the "active" and "completed" lists add up to the "all" list as multisets, and no task is in both |
| TasksPage.CountByStatus | client/src/pages/tasks.tsx:29-30 | the number of tasks with a given `completed` value is at most the collection's size |
| TasksPage.StatusCountsCoverAll | client/src/pages/tasks.tsx:28-30 | completed tasks plus pending tasks is the size of the collection |
| TasksPage.ComputeStats | client/src/pages/tasks.tsx:27-31 | `total` is the collection's size and `completed + pending == total` |
| TasksPage.StatsMatchFilters | client/src/pages/tasks.tsx:27-31 | the completed and pending counts equal the lengths of the "completed" and "active" lists for an empty query |
| TasksPage.CompletedFilterExcludesUnfinishedMatch | client/src/pages/tasks.tsx:17-25 | an unfinished task "Buy milk" matches the query "milk" but is not listed under "completed" |
| Sidebar.CountCategory | client/src/components/sidebar.tsx:17 | a category's count never exceeds the number of tasks |
| Sidebar.SidebarColor | client/src/components/sidebar.tsx:18-19 | purple iff "work", blue iff "personal", green otherwise |
| Sidebar.CategoryStats | client/src/components/sidebar.tsx:13-21 | exactly three entries, in the order work, personal, health. Each count is that category's count and is at most the number of tasks; each colour is the sidebar colour |
| Sidebar.CountIsMultiplicity | client/src/components/sidebar.tsx:17 | a category's count is the number of tasks whose category equals that name |
| Sidebar.CountKnown | client/src/components/sidebar.tsx:17 | the tasks with one of the three category names are at most all the tasks |
| Sidebar.CategoryCountsAddUp | client/src/components/sidebar.tsx:14-17 | the three counts add up to the number of tasks with a known category, so at most the number of tasks |
| Sidebar.KnownCategoriesCountEverything | client/src/components/sidebar.tsx:17 | when every task has one of the three names, the three counts add up to the number of tasks |
| TaskItem.PriorityColor | client/src/components/task-item.tsx:56-63 | red iff "high", amber iff "medium", green iff "low", gray iff any other string |
| TaskItem.CategoryColor | client/src/components/task-item.tsx:74-81 | purple iff "work", blue iff "personal", green iff "health", gray iff any other string |
| TaskItem.CategoryColorMatchesSidebar | client/src/components/task-item.tsx:74-81 | for each of the three sidebar categories, the item's dot colour is the sidebar's |
| TaskItem.PriorityLabel | client/src/components/task-item.tsx:157 | for any stored priority string, the label has the same length. Its first character is upper-cased, the rest is unchanged, and an empty priority gives an empty label |
| TaskItem.PriorityLabelOnlyChangesCase | client/src/components/task-item.tsx:157 | the label lower-cases to the priority's lower-cased form, for every stored priority string |
| TaskItem.PriorityLabelsOfValidPriorities | client/src/components/task-item.tsx:157 | the three priorities show as "Low", "Medium" and "High" |
| TaskItem.InitialDraft | client/src/components/task-item.tsx:17-20 | the draft starts with the task's title, and the description or "" when there is none |
| TaskItem.ToggleUpdate | client/src/components/task-item.tsx:27-30 | the toggle update's only key is `completed`, holding the negation of the task's `completed` |
| TaskItem.DraftUpdate | client/src/components/task-item.tsx:38-41 | the save update's only keys are the draft's title and description |
| TaskItem.ToggleUpdateFlipsOnlyCompleted | client/src/components/task-item.tsx:25-30 | the toggle update is accepted by the update schema. Applied to the task, it negates `completed` and changes nothing else |
| TaskItem.ToggleTwiceRestores | client/src/components/task-item.tsx:25-30 | toggling, then toggling the refreshed row, restores the original row |
| TaskItem.DraftUpdateAcceptedIffTitle | client/src/components/task-item.tsx:36-41 | the draft sent by save passes the update schema iff its title is non-empty. Applied, it sets title and description and nothing else |
| TaskItem.Controller.constructor | client/src/components/task-item.tsx:15-20 | a mounted item is not editing, its draft comes from the task, and it has sent nothing |
| TaskItem.Controller.OpenEditor | client/src/components/task-item.tsx:160-165 | opening the editor sets editing and keeps the draft |
| TaskItem.Controller.SetTitle | client/src/components/task-item.tsx:173-176 | typing a title replaces only the draft's title |
| TaskItem.Controller.SetDescription | client/src/components/task-item.tsx:180-184 | typing a description replaces only the draft's description |
| TaskItem.Controller.Cancel | client/src/components/task-item.tsx:187 | cancel leaves editing and sends no mutation |
| TaskItem.Controller.ToggleComplete | client/src/components/task-item.tsx:25-34 | toggle sends exactly one update of this task, carrying only the flipped `completed`. A failure is logged; editing state and draft never change |
| TaskItem.Controller.SaveEdit | client/src/components/task-item.tsx:36-46 | save sends the draft as an update of this task. It leaves editing iff the mutation succeeded; a failure is logged and editing stays open |
| TaskItem.Controller.DeleteTask | client/src/components/task-item.tsx:48-54 | delete sends one delete of this task's id. A failure is logged; editing state and draft never change |

## Left out

- Rendering (JSX, SVG icons, CSS classes other than the two colour maps and the sidebar
  dot), dialogs, buttons and the mobile button: display only.
- `getPriorityIcon` (task-item.tsx:65-72): it returns SVG elements only.
- `formatDueDate` and `formatDistanceToNow` (task-item.tsx:83-97,141): they depend on the
  wall clock, JavaScript `Date` parsing and date-fns formatting.
- The hooks `useTasks`, `useUpdateTask` and `useDeleteTask`: their module
  (`@/hooks/use-tasks`) is not part of this model. Each mutation is a record in
  `Controller.sent`, and its outcome is the parameter `ok`.
- Storage is not part of this model: the server routes, the id generator, `defaultNow()`
  and not-found errors. The update route is not in the source either. So
  `Schema.ApplyUpdate` is an assumed reading of how storage merges an update: each field
  present in the update replaces the stored one, and each absent field is kept. That
  reading follows `updateTaskSchema.partial()`. `UpdateIdempotent`, `ToggleTwiceRestores`
  and `DraftUpdateAcceptedIffTitle` rest on it.
- Disabling a control while its mutation is pending (`isPending`, task-item.tsx:109,190,202),
  and any concurrency between mutations: mutations here are sequential.
- The task prop changing after a refetch: `Controller.task` is fixed for one controller.
  `ToggleTwiceRestores` states the two-toggle round trip on the refreshed row instead.
- The task creation form (`client/src/components/task-form.tsx`) and the task list
  component are not part of this model.
- The `users` table and its schema (schema.ts:35-47): not part of the task logic.
- Zod's error objects and messages: a rejection is the set of fields that failed.
- Payload values of the wrong JavaScript type (a number as a title, `null` as a
  description): the payload's keys hold strings and booleans or are absent.
- The fallback `return false` for an unknown filter (tasks.tsx:24): the filter is a closed
  type with three values, so that branch cannot be reached.
- Text.Lower: does not model Unicode `toLowerCase`, only ASCII letters are folded.
- Text.Upper: does not model Unicode `toUpperCase`, only ASCII letters are folded. In
  JavaScript, upper-casing can change a string's lower-cased form ("ß" becomes "SS"), so
  `SearchIgnoresQueryCase` holds only for this ASCII folding.
- TaskItem.PriorityLabel: does not model Unicode `toUpperCase` (which can lengthen a
  string), only an ASCII first letter is upper-cased.
