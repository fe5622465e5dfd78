# mcp-todoist adaptation layer in Dafny

This project models the request/response adaptation layer of the mcp-todoist
server. The layer has two parts:

- `TodoistTools` turns each tool call's optional arguments into the parameter
  map of one remote Todoist call. It makes the call and normalizes the
  returned objects into plain records. `create_task` falls back to a direct
  HTTP request when the SDK call fails.
- `TodoistResources` lists tasks, projects, sections or labels. It renders
  them as a markdown table followed by a raw JSON block, and answers with a
  plain-text notice or error document otherwise.

Modules:

- `Wrappers`: `Option` and `Result`.
- `Values`: Python values (`Value`) and the keyword names (`Key`). It also has
  the dict lookup `d[k]` with its KeyError and the exception texts.
- `Lists`: a comprehension whose element may raise (`Collect`) and the string
  `+=` loop (`Concat`).
- `Remote`: remote SDK objects as attribute maps, where `hasattr` is map
  membership. It also has the two ways the layer reads attributes: probing
  (`CopyPresent`) and direct reads that raise AttributeError (`RequireAttrs`).
- `Normalize`: the five `_x_to_dict` normalizers.
- `Params`: the parameter builders. Each builder is a `Plan`, meaning its
  optional keywords in source order with an "is not None" or truthiness
  guard. `Build` gives a plan's meaning, and `BuildSpec` proves what any plan
  sends. Each builder method does the source's inserts one by one and is
  proved equal to `Build`.
- `Tools`: the tool operations. Remote calls are function parameters that
  return `Success(object)` or `Failure(exception text)`. Every error path
  ends in the ValueError message the source raises.
- `TaskResources`: the task record of `get_tasks_resource`.
- `Resources`: the four resources, the shared table renderer, the priority
  labels and the due column.

Behaviour of the code worth knowing:

- `_task_to_dict` checks every attribute with `hasattr` and never raises.
  `_label_to_dict` checks only `favorite`, which defaults to False.
  `_comment_to_dict` checks only its two targets, `task_id` and `project_id`.
  Every other attribute read, in `_project_to_dict`, `_section_to_dict`, those
  two normalizers and the resource comprehensions, is direct, and a missing
  attribute raises AttributeError.
- `_task_to_dict` never looks at `label_ids`. Only the tasks resource does,
  and that record then gets neither key when both are missing.
- A project record has no `view_style`.
- In the tasks resource, a priority that is a list or a dict raises TypeError
  and yields the error document. Any other value outside 1 to 4 shows as
  "Normal".

## Model

| member | source | states |
|---|---|---|
| Values.Lookup | todoist_resources.py:108-115 | `d[k]` succeeds exactly when the key is present and yields its entry; otherwise it fails with the KeyError text |
| Values.Decimal | todoist_resources.py:234 | the digits an f-string writes for a non-negative int denote that int, with no leading zero except for 0 itself |
| Values.RecordList | todoist_resources.py:119 | the value given to `json.dumps` is a list with one dict per record, in order |
| Lists.ConcatPrefix | todoist_resources.py:106-115 | the text after any number of `+=` steps is a prefix of the final text |
| Lists.Collect | todoist_tools.py:709 | a comprehension whose element may raise succeeds exactly when every element does; it keeps length and order; on failure it carries the error of the first failing element |
| Remote.CopyPresent | todoist_tools.py:1187-1190 | the probing loop keeps exactly the listed attributes the object has, each with its own value |
| Remote.CopyAttrs | todoist_tools.py:1176-1190 | the `for attr in [...]: if hasattr` loop computes `CopyPresent` |
| Remote.RequireAttrsSpec | todoist_tools.py:1210-1230 | a literal of direct attribute reads succeeds exactly when every listed attribute exists; it then holds exactly those keys and values; otherwise it raises AttributeError for the first missing one |
| Remote.RequireAttrsValues | todoist_tools.py:1212-1221 | a successful literal holds every listed attribute unchanged |
| Normalize.DueEntry | todoist_tools.py:1193-1201 | `due` is None exactly when the task has no due attribute or it is None; otherwise it is the dict of the due object's present sub-fields |
| Normalize.TaskRecord | todoist_tools.py:1175-1208 | a normalized task always has `due` and `labels` |
| Normalize.TaskRecordKeys | todoist_tools.py:1176-1206 | the keys are the nine attributes the task has, plus `due` and `labels` |
| Normalize.TaskRecordValues | todoist_tools.py:1187-1190 | each copied attribute keeps the task's value |
| Normalize.TaskRecordDue | todoist_tools.py:1192-1206 | `due` is None iff the task's due is missing or None; a due dict holds exactly the present sub-fields with their values; `labels` is the task's labels, or `[]` when it has none |
| Normalize.TaskToDict | todoist_tools.py:1175-1208 | the statement form of `_task_to_dict` computes `TaskRecord` |
| Normalize.DueToDict | todoist_tools.py:1193-1201 | the due block computes `DueEntry` |
| Normalize.ProjectRecordSpec | todoist_tools.py:1210-1221 | `ProjectRecord`: a project normalizes iff it has all eight attributes; the record then holds exactly those, unchanged; otherwise the AttributeError names the first one missing |
| Normalize.SectionRecordSpec | todoist_tools.py:1223-1230 | `SectionRecord`: a section normalizes iff it has id, name, order and project_id; the record then holds exactly those, unchanged; otherwise the AttributeError names the first one missing |
| Normalize.LabelRecordSpec | todoist_tools.py:1232-1240 | `LabelRecord`: a label normalizes iff it has id, name, color and order; the record has exactly those plus `favorite`, which is the label's own value or False; otherwise the AttributeError names the first of the four missing |
| Normalize.CommentRecordKeys | todoist_tools.py:1242-1256 | `CommentRecord`: a comment normalizes iff it has id, content and posted_at; a target key is present iff the comment has that attribute and it is truthy; otherwise the AttributeError names the first of the three missing |
| Normalize.CommentRecordValues | todoist_tools.py:1244-1254 | every value of a normalized comment is the comment's own attribute |
| Normalize.CommentToDict | todoist_tools.py:1242-1256 | the statement form computes `CommentRecord` |
| Params.BuildSpec | todoist_tools.py:71-95 | for any plan with distinct keys, mandatory entries stay unchanged; each planned key is sent iff its argument passes its guard, with the value unchanged; nothing else is sent |
| Params.CreateTaskParamsSpec | todoist_tools.py:71-95 | `content` is always sent; each of the twelve optional arguments is sent iff it is not None, unchanged; nothing else |
| Params.CreateTaskExample | todoist_tools.py:71-95 | "Buy milk" due "tomorrow" at priority 2 sends exactly those three keys |
| Params.BuildCreateTask | todoist_tools.py:71-95 | the twelve guarded inserts compute `CreateTaskParams` |
| Params.UpdateTaskParamsSpec | todoist_tools.py:292-316 | each of the ten arguments is sent iff it is not None; the map is empty iff all are None |
| Params.BuildUpdateTask | todoist_tools.py:292-312 | the inserts compute `UpdateTaskParams` |
| Params.AddProjectParamsSpec | todoist_tools.py:517-525 | `name` is always sent; `parent_id`, `color` and `view_style` are sent iff truthy; `is_favorite` iff not None |
| Params.BuildAddProject | todoist_tools.py:517-525 | the inserts compute `AddProjectParams` |
| Params.UpdateProjectParamsSpec | todoist_tools.py:587-598 | `id` is always sent, the rest under their guards; the map is `{id}` alone iff no guard passes |
| Params.BuildUpdateProject | todoist_tools.py:587-595 | the inserts compute `UpdateProjectParams` |
| Params.AddSectionParamsSpec | todoist_tools.py:764-766 | `name` and `project_id` are always sent; `order` iff not None, so 0 is sent |
| Params.BuildAddSection | todoist_tools.py:764-766 | the insert computes `AddSectionParams` |
| Params.AddLabelParamsSpec | todoist_tools.py:902-906 | `name` is always sent; `color` iff truthy; `favorite` iff not None |
| Params.BuildAddLabel | todoist_tools.py:902-906 | the inserts compute `AddLabelParams` |
| Params.UpdateLabelParamsSpec | todoist_tools.py:940-949 | `id` is always sent, the rest under their guards; the map is `{id}` alone iff no guard passes |
| Params.BuildUpdateLabel | todoist_tools.py:940-947 | the inserts compute `UpdateLabelParams` |
| Params.SingleKey | todoist_tools.py:597 | for a map holding `id`, `len(update_data) == 1` iff `id` is its only key |
| Params.TaskQuerySpec | todoist_tools.py:190-207 | a truthy filter query selects the filter call whatever the other filters are; otherwise the listing call gets exactly the truthy filters |
| Params.TaskQueryNoArguments | todoist_tools.py:196-207 | with no arguments, the listing call gets no keyword arguments |
| Params.SelectTaskQuery | todoist_tools.py:190-207 | the `if filter_query` selection computes `TaskQueryOf` |
| Params.BuildTaskFilter | todoist_tools.py:197-203 | the three truthy-guarded inserts compute `TaskFilter` |
| Params.SectionFilterSpec | todoist_tools.py:704-706 | `project_id` is sent iff truthy, and nothing else |
| Params.BuildSectionFilter | todoist_tools.py:704-706 | the insert computes `SectionFilter` |
| Params.CommentQuerySpec | todoist_tools.py:1005-1012 | the query fails with the fixed message iff neither target is truthy; otherwise it holds exactly the truthy targets, at least one |
| Params.CommentDataSpec | todoist_tools.py:1070-1077 | the same, with `content` always sent |
| Params.BuildCommentQuery | todoist_tools.py:1005-1012 | the check and inserts compute `CommentQuery` |
| Params.BuildCommentData | todoist_tools.py:1070-1077 | the check and inserts compute `CommentData` |
| Tools.Wrapped | todoist_tools.py:215 | the re-raised message is the prefix followed by the original message |
| Tools.CreateTaskError | todoist_tools.py:155-158 | when both paths fail, the message is the prefix, then the SDK error, then ". Direct API error: ", then the direct request's error, each at its own position |
| Tools.CreateTask | todoist_tools.py:70-158 | the SDK call gets the built parameters; the direct request is made only when the SDK call fails, with the same parameters; either success gives the same normalized record; double failure gives the combined message |
| Tools.TaskRecords | todoist_tools.py:210 | one normalized record per task, in order |
| Tools.GetTasks | todoist_tools.py:186-215 | the selected listing call's tasks are normalized in order; a failed call is wrapped |
| Tools.GetTask | todoist_tools.py:237-250 | the fetched task's record, or the wrapped fetch error |
| Tools.UpdateTask | todoist_tools.py:290-337 | an empty update fails unwrapped before any call; a failed or falsy update is wrapped; otherwise the re-fetched record, with a fetch error wrapped twice |
| Tools.AddProject | todoist_tools.py:516-532 | the created project's record; a failed call or a missing attribute gives the wrapped message |
| Tools.UpdateProject | todoist_tools.py:586-605 | an `{id}`-only update fails with the wrapped "No update data provided" before the call; otherwise as `AddProject` |
| Tools.GetSections | todoist_tools.py:703-713 | one record per section in order, or the wrapped first failure |
| Tools.AddSection | todoist_tools.py:763-773 | the created section's record, or the wrapped error |
| Tools.GetLabels | todoist_tools.py:845-851 | one record per label in order, or the wrapped first failure |
| Tools.AddLabel | todoist_tools.py:901-913 | the created label's record, or the wrapped error |
| Tools.UpdateLabel | todoist_tools.py:939-956 | an `{id}`-only update fails wrapped before the call; otherwise the label's record or the wrapped error |
| Tools.GetComments | todoist_tools.py:1004-1019 | without a truthy target it fails wrapped before any call; otherwise one record per comment, or the wrapped first failure |
| Tools.AddComment | todoist_tools.py:1069-1084 | the same check, then the created comment's record |
| TaskResources.TaskResourceRecordSucceeds | todoist_resources.py:66-96 | `TaskResourceRecord`: a task becomes a record iff it has the nine attributes and `due`; missing only `due` raises for `due` |
| TaskResources.TaskResourceRecordKeys | todoist_resources.py:66-96 | a built record holds exactly the nine attributes, `due`, and `labels` or `label_ids` as the branch chose, and no other key |
| TaskResources.TaskResourceRecordLabels | todoist_resources.py:79-83 | `labels` wins over `label_ids`; a task with neither gets neither key |
| TaskResources.TaskResourceRecordValues | todoist_resources.py:67-77 | the nine attributes are kept unchanged |
| TaskResources.TaskResourceRecordDue | todoist_resources.py:85-96 | the record's `due` is None iff the task's due is None; otherwise it is the dict of present sub-fields |
| TaskResources.TaskToResourceDict | todoist_resources.py:66-98 | the loop body computes `TaskResourceRecord` |
| Resources.ErrorDocument | todoist_resources.py:125-129 | an exception yields a plain-text document: "Error accessing Todoist ", the resource name and ": ", followed by the exception text |
| Resources.Cells | todoist_resources.py:115 | a table line starts with a bar and ends with a newline |
| Resources.CellsThree | todoist_resources.py:234 | a line of three cells is the f-string line: a bar, then each cell between single spaces and followed by a bar, then a newline |
| Resources.CellsFour | todoist_resources.py:115 | a line of four cells is the f-string line built the same way, cells in order |
| Resources.PresentSpec | todoist_resources.py:101-124 | `Present`: the result is markdown iff there are records and no row or serialiser raises; it is then heading, rows in order and raw-data block; no records give the notice; a raising row gives the error document |
| Resources.AppendRows | todoist_resources.py:106-115 | the `+=` loop computes the heading and all rows, or stops at the first raising row |
| Resources.Render | todoist_resources.py:101-124 | the `if data` tail computes `Present` |
| Resources.PriorityLabel | todoist_resources.py:112-113 | the lookup succeeds iff the priority is hashable; otherwise it gives the TypeError text |
| Resources.PriorityMapping | todoist_resources.py:112-113 | 1 Normal, 2 Medium, 3 High, 4 Urgent; every other hashable priority is Normal |
| Resources.DueCell | todoist_resources.py:107-110 | the due column never raises for None or a dict; a falsy entry shows "None"; a due dict without `date` shows "" |
| Resources.TaskRow | todoist_resources.py:106-115 | a task line renders iff the record has id, content, due and priority, the due column does not raise and the priority is hashable; it is then the four-cell f-string line of id, content, the due column and the priority label |
| Resources.TaskRowSpec | todoist_resources.py:106-115 | the due column never raises for a record's due entry; a line raises iff its priority is unhashable |
| Resources.DueDictEmpty | todoist_resources.py:88-92 | the due dict is empty iff the due object has none of the five sub-fields |
| Resources.DueCellShows | todoist_resources.py:85-110 | the due column shows "None" for no due date or an empty due dict; otherwise the date, or "" without one |
| Resources.TaskRecordRenders | todoist_resources.py:106-115 | a task's line renders iff its priority is hashable |
| Resources.TaskRowsRender | todoist_resources.py:106-115 | the task table renders iff every priority is hashable |
| Resources.TasksDocumentSpec | todoist_resources.py:50-129 | `TasksDocument`: a failed listing call or a task missing an attribute gives the error document; no tasks give "No tasks found."; the result is markdown or plain text |
| Resources.TasksDocumentMarkdown | todoist_resources.py:50-129 | the tasks resource is markdown iff the call lists some tasks, all records build, every priority is hashable and the records serialise |
| Resources.GetTasksResource | todoist_resources.py:50-129 | the filters, the call, the record loop and the table compute `TasksDocument` |
| Resources.Mark | todoist_resources.py:174-175 | the mark is shown iff the flag is truthy, and is empty otherwise |
| Resources.ProjectRow | todoist_resources.py:173-177 | a project line renders iff the record has id, name, is_favorite and is_inbox_project; it is then the four-cell f-string line of id, name, ★ iff favourite and ✓ iff inbox |
| Resources.ProjectRecordRenders | todoist_resources.py:153-177 | every normalized project renders its line |
| Resources.ProjectsDocumentSpec | todoist_resources.py:148-191 | `ProjectsDocument`: a failed call gives the error document; no projects give "No projects found."; markdown iff projects, records and serialisation all succeed |
| Resources.GetProjectsResource | todoist_resources.py:148-191 | the resource computes `ProjectsDocument` |
| Resources.SectionRow | todoist_resources.py:233-234 | a section line renders iff the record has id, name and order; it is then the three-cell f-string line of id, name and order |
| Resources.SectionRecordRenders | todoist_resources.py:217-234 | every section record renders its line |
| Resources.SectionsDocumentSpec | todoist_resources.py:212-248 | `SectionsDocument`: the same three outcomes for sections, with the project id in the notice |
| Resources.GetSectionsResource | todoist_resources.py:212-248 | the resource computes `SectionsDocument` |
| Resources.LabelResourceRecordSpec | todoist_resources.py:272-281 | `LabelResourceRecord`: a label becomes a record iff it has id, name, color, order and is_favorite; it then holds exactly those, unchanged; otherwise the AttributeError names the first one missing |
| Resources.LabelRow | todoist_resources.py:289-292 | a label line renders iff the record has id, name, color and is_favorite; it is then the four-cell f-string line of id, name, color and ★ iff favourite |
| Resources.LabelRecordRenders | todoist_resources.py:272-292 | every label record renders its line |
| Resources.LabelsDocumentSpec | todoist_resources.py:267-306 | `LabelsDocument`: the same three outcomes for labels |
| Resources.GetLabelsResource | todoist_resources.py:267-306 | the resource computes `LabelsDocument` |

## Left out

- Logging through the optional MCP context (`ctx.info`/`ctx.error`). The model treats `ctx` as None. The calls only log and change no result.
- `async`, the event loop and `run_in_executor`. Each remote call is modelled as a synchronous function of its arguments.
- The remote Todoist API, the SDK's pagination of `get_tasks`, and `TodoistAPI(...)` construction. They are the given call functions.
- The direct HTTP fallback of `create_task` (aiohttp session, status check, `Task.from_dict`). It is one given function from the parameter map to a task or an error text.
- `json.dumps` and Python's `repr` of lists and dicts. They are given functions, so the raw-data text and those cells are not spelled out.
- Dict key order. Records are maps, which changes only the order inside the JSON text.
- Keyword names are an enumeration (`Key`) with their spelling in `Key.Keyword`. No code path builds a name at run time.
- Remote objects carry only the attributes the layer reads. The truthiness of a due object is taken to be always true.
- Floats and other Python types. Values are None, bool, int, str, list and dict.
- The other tool operations reuse the same patterns and are not modelled: `complete_task`, `uncomplete_task`, `delete_task`, `get_projects`, `get_project`, `delete_project`, `archive_project`, `unarchive_project`, `get_section`, `update_section`, `delete_section`, `get_label`, `delete_label`, `get_comment`, `update_comment`, `delete_comment`, `get_collaborators`.
- main.py, minimal_main.py, config.py and setup.py (server wiring and configuration) are not part of this model.
