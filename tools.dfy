/**
 * The operations of `TodoistTools` around their remote calls. Each remote
 * call is a parameter: a function from what the operation sends to the
 * call's outcome, `Success` with the returned object or `Failure` with the
 * text of the exception it raised. An operation's own result is likewise
 * `Success` with the record it returns or `Failure` with the message of the
 * ValueError it raises.
 *
 * Every operation catches whatever its body raises and re-raises it as
 * "Failed to <action>: <message>"; the one exception is `update_task`'s
 * empty-update check, which sits before its `try`.
 */
module Tools {
  import opened Wrappers
  import opened Values
  import opened Remote
  import opened Normalize
  import opened Lists
  import opened Params

  /** `raise ValueError(f"<prefix>{str(e)}")` for a failed outcome. */
  function Wrapped(prefix: string, error: string): (m: string)
    ensures prefix <= m && m[|prefix|..] == error
  {
    prefix + error
  }

  // ---------------------------------------------------------------- tasks

  const CreateTaskPrefix: string := "Failed to create Todoist task: "

  const DirectApiSeparator: string := ". Direct API error: "

  /** The message raised when both ways of creating a task fail: the prefix, the SDK error, then the direct request's error. */
  function CreateTaskError(sdkError: string, directError: string): (m: string)
    ensures var p := |CreateTaskPrefix|;
      && |m| == p + |sdkError| + |DirectApiSeparator| + |directError|
      && m[..p] == CreateTaskPrefix
      && m[p..p + |sdkError|] == sdkError
      && m[p + |sdkError|..|m| - |directError|] == DirectApiSeparator
      && m[|m| - |directError|..] == directError
  {
    CreateTaskPrefix + sdkError + DirectApiSeparator + directError
  }

  /**
   * `create_task`: the SDK call first, the direct HTTP request only when it
   * fails, both with the same parameter map; the returned task is normalized.
   */
  method CreateTask(
    content: Value, args: Args,
    sdkAdd: Kwargs -> Result<RemoteTask, string>,
    directPost: Kwargs -> Result<RemoteTask, string>)
    returns (r: Result<Record, string>)
    ensures var p := CreateTaskParams(content, args);
      sdkAdd(p).Success? ==> r == Success(TaskRecord(sdkAdd(p).value))
    ensures var p := CreateTaskParams(content, args);
      sdkAdd(p).Failure? && directPost(p).Success? ==> r == Success(TaskRecord(directPost(p).value))
    ensures var p := CreateTaskParams(content, args);
      sdkAdd(p).Failure? && directPost(p).Failure? ==>
        r == Failure(CreateTaskError(sdkAdd(p).error, directPost(p).error))
  {
    var data := BuildCreateTask(content, args);
    var first := sdkAdd(data);
    if first.Success? {
      var task := TaskToDict(first.value);
      return Success(task);
    }
    var second := directPost(data);
    if second.Success? {
      var task := TaskToDict(second.value);
      return Success(task);
    }
    r := Failure(CreateTaskError(first.error, second.error));
  }

  const GetTasksPrefix: string := "Failed to get Todoist tasks: "

  /** `[self._task_to_dict(task) for task in tasks_list]`. */
  function TaskRecords(tasks: seq<RemoteTask>): (rs: seq<Record>)
    ensures |rs| == |tasks|
    ensures forall i :: 0 <= i < |tasks| ==> rs[i] == TaskRecord(tasks[i])
  {
    seq(|tasks|, i requires 0 <= i < |tasks| => TaskRecord(tasks[i]))
  }

  /**
   * `get_tasks`: the filter call when the query is truthy, the listing call
   * with the truthy filters otherwise; one record per task, in order.
   */
  method GetTasks(
    filterQuery: Value, args: Args,
    filterTasks: Value -> Result<seq<RemoteTask>, string>,
    listTasks: Kwargs -> Result<seq<RemoteTask>, string>)
    returns (r: Result<seq<Record>, string>)
    ensures var fetched :=
      match TaskQueryOf(filterQuery, args)
      case ByFilter(q) => filterTasks(q)
      case ByKwargs(kw) => listTasks(kw);
      && (fetched.Failure? ==> r == Failure(Wrapped(GetTasksPrefix, fetched.error)))
      && (fetched.Success? ==> r.Success? && r.value == TaskRecords(fetched.value))
  {
    var query := SelectTaskQuery(filterQuery, args);
    var fetched;
    if query.ByFilter? {
      fetched := filterTasks(query.query);
    } else {
      fetched := listTasks(query.kwargs);
    }
    if fetched.Failure? {
      return Failure(Wrapped(GetTasksPrefix, fetched.error));
    }
    r := Success(TaskRecords(fetched.value));
  }

  const GetTaskPrefix: string := "Failed to get Todoist task: "

  /** `get_task`: the task's record, or the wrapped error of the fetch. */
  method GetTask(taskId: Value, fetch: Value -> Result<RemoteTask, string>)
    returns (r: Result<Record, string>)
    ensures fetch(taskId).Success? ==> r == Success(TaskRecord(fetch(taskId).value))
    ensures fetch(taskId).Failure? ==> r == Failure(Wrapped(GetTaskPrefix, fetch(taskId).error))
  {
    var got := fetch(taskId);
    if got.Failure? {
      return Failure(Wrapped(GetTaskPrefix, got.error));
    }
    var task := TaskToDict(got.value);
    r := Success(task);
  }

  const UpdateTaskPrefix: string := "Failed to update Todoist task: "
  const NoUpdateData: string := "No update data provided"

  /**
   * `update_task`: an empty update is refused before any remote call and
   * without the operation's prefix; a falsy answer from the update call is an
   * error; otherwise the task is fetched again through `get_task`, whose own
   * error is wrapped a second time.
   */
  method UpdateTask(
    taskId: Value, args: Args,
    update: (Value, Kwargs) -> Result<Value, string>,
    fetch: Value -> Result<RemoteTask, string>)
    returns (r: Result<Record, string>)
    ensures var p := UpdateTaskParams(args);
      |p| == 0 ==> r == Failure(NoUpdateData)
    ensures var p := UpdateTaskParams(args);
      |p| != 0 && update(taskId, p).Failure? ==>
        r == Failure(Wrapped(UpdateTaskPrefix, update(taskId, p).error))
    ensures var p := UpdateTaskParams(args);
      |p| != 0 && update(taskId, p).Success? && !Truthy(update(taskId, p).value) ==>
        r == Failure(Wrapped(UpdateTaskPrefix, "Failed to update task"))
    ensures var p := UpdateTaskParams(args);
      |p| != 0 && update(taskId, p).Success? && Truthy(update(taskId, p).value) ==>
        (fetch(taskId).Success? ==> r == Success(TaskRecord(fetch(taskId).value))) &&
        (fetch(taskId).Failure? ==>
          r == Failure(Wrapped(UpdateTaskPrefix, Wrapped(GetTaskPrefix, fetch(taskId).error))))
  {
    var data := BuildUpdateTask(args);
    if |data| == 0 {
      return Failure(NoUpdateData);
    }
    var success := update(taskId, data);
    if success.Failure? {
      return Failure(Wrapped(UpdateTaskPrefix, success.error));
    }
    if !Truthy(success.value) {
      return Failure(Wrapped(UpdateTaskPrefix, "Failed to update task"));
    }
    var got := GetTask(taskId, fetch);
    if got.Failure? {
      return Failure(Wrapped(UpdateTaskPrefix, got.error));
    }
    r := got;
  }

  // ---------------------------------------------------------------- projects

  const AddProjectPrefix: string := "Failed to create Todoist project: "

  /** `add_project`: the created project's record; a failed call or a missing attribute is wrapped. */
  method AddProject(name: Value, args: Args, add: Kwargs -> Result<RemoteProject, string>)
    returns (r: Result<Record, string>)
    ensures var out := add(AddProjectParams(name, args));
      && (out.Failure? ==> r == Failure(Wrapped(AddProjectPrefix, out.error)))
      && (out.Success? && ProjectRecord(out.value).Failure? ==>
            r == Failure(Wrapped(AddProjectPrefix, ProjectRecord(out.value).error)))
      && (out.Success? && ProjectRecord(out.value).Success? ==> r == ProjectRecord(out.value))
  {
    var data := BuildAddProject(name, args);
    var project := add(data);
    if project.Failure? {
      return Failure(Wrapped(AddProjectPrefix, project.error));
    }
    var record := ProjectRecord(project.value);
    if record.Failure? {
      return Failure(Wrapped(AddProjectPrefix, record.error));
    }
    r := record;
  }

  const UpdateProjectPrefix: string := "Failed to update Todoist project: "

  /**
   * `update_project`: a map holding only the id is refused before the remote
   * call, and since the check sits inside the `try` its message is wrapped.
   */
  method UpdateProject(projectId: Value, args: Args, update: Kwargs -> Result<RemoteProject, string>)
    returns (r: Result<Record, string>)
    ensures var p := UpdateProjectParams(projectId, args);
      p.Keys == {Id} ==> r == Failure(Wrapped(UpdateProjectPrefix, NoUpdateData))
    ensures var p := UpdateProjectParams(projectId, args);
      var out := update(p);
      p.Keys != {Id} ==>
        && (out.Failure? ==> r == Failure(Wrapped(UpdateProjectPrefix, out.error)))
        && (out.Success? && ProjectRecord(out.value).Failure? ==>
              r == Failure(Wrapped(UpdateProjectPrefix, ProjectRecord(out.value).error)))
        && (out.Success? && ProjectRecord(out.value).Success? ==> r == ProjectRecord(out.value))
  {
    var data := BuildUpdateProject(projectId, args);
    UpdateProjectParamsSpec(projectId, args);
    SingleKey(data, Id);
    if |data| == 1 {
      return Failure(Wrapped(UpdateProjectPrefix, NoUpdateData));
    }
    var project := update(data);
    if project.Failure? {
      return Failure(Wrapped(UpdateProjectPrefix, project.error));
    }
    var record := ProjectRecord(project.value);
    if record.Failure? {
      return Failure(Wrapped(UpdateProjectPrefix, record.error));
    }
    r := record;
  }

  // ---------------------------------------------------------------- sections

  const GetSectionsPrefix: string := "Failed to get Todoist sections: "

  /** `get_sections`: one record per section in order, or the first failure, wrapped. */
  method GetSections(args: Args, list: Kwargs -> Result<seq<RemoteSection>, string>)
    returns (r: Result<seq<Record>, string>)
    ensures var out := list(SectionFilter(args));
      && (out.Failure? ==> r == Failure(Wrapped(GetSectionsPrefix, out.error)))
      && (out.Success? && Collect(SectionRecord, out.value).Failure? ==>
            r == Failure(Wrapped(GetSectionsPrefix, Collect(SectionRecord, out.value).error)))
      && (out.Success? && Collect(SectionRecord, out.value).Success? ==>
            r == Collect(SectionRecord, out.value))
  {
    var kwargs := BuildSectionFilter(args);
    var sections := list(kwargs);
    if sections.Failure? {
      return Failure(Wrapped(GetSectionsPrefix, sections.error));
    }
    var records := Collect(SectionRecord, sections.value);
    if records.Failure? {
      return Failure(Wrapped(GetSectionsPrefix, records.error));
    }
    r := records;
  }

  const AddSectionPrefix: string := "Failed to create Todoist section: "

  /** `add_section`: the created section's record, or the wrapped error. */
  method AddSection(name: Value, projectId: Value, args: Args, add: Kwargs -> Result<RemoteSection, string>)
    returns (r: Result<Record, string>)
    ensures var out := add(AddSectionParams(name, projectId, args));
      && (out.Failure? ==> r == Failure(Wrapped(AddSectionPrefix, out.error)))
      && (out.Success? && SectionRecord(out.value).Failure? ==>
            r == Failure(Wrapped(AddSectionPrefix, SectionRecord(out.value).error)))
      && (out.Success? && SectionRecord(out.value).Success? ==> r == SectionRecord(out.value))
  {
    var data := BuildAddSection(name, projectId, args);
    var section := add(data);
    if section.Failure? {
      return Failure(Wrapped(AddSectionPrefix, section.error));
    }
    var record := SectionRecord(section.value);
    if record.Failure? {
      return Failure(Wrapped(AddSectionPrefix, record.error));
    }
    r := record;
  }

  // ---------------------------------------------------------------- labels

  const GetLabelsPrefix: string := "Failed to get Todoist labels: "

  /** `get_labels`: one record per label in order, or the first failure, wrapped. */
  method GetLabels(labels: Result<seq<RemoteLabel>, string>)
    returns (r: Result<seq<Record>, string>)
    ensures labels.Failure? ==> r == Failure(Wrapped(GetLabelsPrefix, labels.error))
    ensures labels.Success? && Collect(LabelRecord, labels.value).Failure? ==>
      r == Failure(Wrapped(GetLabelsPrefix, Collect(LabelRecord, labels.value).error))
    ensures labels.Success? && Collect(LabelRecord, labels.value).Success? ==>
      r == Collect(LabelRecord, labels.value)
  {
    if labels.Failure? {
      return Failure(Wrapped(GetLabelsPrefix, labels.error));
    }
    var records := Collect(LabelRecord, labels.value);
    if records.Failure? {
      return Failure(Wrapped(GetLabelsPrefix, records.error));
    }
    r := records;
  }

  const AddLabelPrefix: string := "Failed to create Todoist label: "

  /** `add_label`: the created label's record, or the wrapped error. */
  method AddLabel(name: Value, args: Args, add: Kwargs -> Result<RemoteLabel, string>)
    returns (r: Result<Record, string>)
    ensures var out := add(AddLabelParams(name, args));
      && (out.Failure? ==> r == Failure(Wrapped(AddLabelPrefix, out.error)))
      && (out.Success? && LabelRecord(out.value).Failure? ==>
            r == Failure(Wrapped(AddLabelPrefix, LabelRecord(out.value).error)))
      && (out.Success? && LabelRecord(out.value).Success? ==> r == LabelRecord(out.value))
  {
    var data := BuildAddLabel(name, args);
    var labelObj := add(data);
    if labelObj.Failure? {
      return Failure(Wrapped(AddLabelPrefix, labelObj.error));
    }
    var record := LabelRecord(labelObj.value);
    if record.Failure? {
      return Failure(Wrapped(AddLabelPrefix, record.error));
    }
    r := record;
  }

  const UpdateLabelPrefix: string := "Failed to update Todoist label: "

  /** `update_label`: as `update_project`, a map holding only the id is refused inside the `try`. */
  method UpdateLabel(labelId: Value, args: Args, update: Kwargs -> Result<RemoteLabel, string>)
    returns (r: Result<Record, string>)
    ensures var p := UpdateLabelParams(labelId, args);
      p.Keys == {Id} ==> r == Failure(Wrapped(UpdateLabelPrefix, NoUpdateData))
    ensures var p := UpdateLabelParams(labelId, args);
      var out := update(p);
      p.Keys != {Id} ==>
        && (out.Failure? ==> r == Failure(Wrapped(UpdateLabelPrefix, out.error)))
        && (out.Success? && LabelRecord(out.value).Failure? ==>
              r == Failure(Wrapped(UpdateLabelPrefix, LabelRecord(out.value).error)))
        && (out.Success? && LabelRecord(out.value).Success? ==> r == LabelRecord(out.value))
  {
    var data := BuildUpdateLabel(labelId, args);
    UpdateLabelParamsSpec(labelId, args);
    SingleKey(data, Id);
    if |data| == 1 {
      return Failure(Wrapped(UpdateLabelPrefix, NoUpdateData));
    }
    var labelObj := update(data);
    if labelObj.Failure? {
      return Failure(Wrapped(UpdateLabelPrefix, labelObj.error));
    }
    var record := LabelRecord(labelObj.value);
    if record.Failure? {
      return Failure(Wrapped(UpdateLabelPrefix, record.error));
    }
    r := record;
  }

  // ---------------------------------------------------------------- comments

  const GetCommentsPrefix: string := "Failed to get Todoist comments: "

  /**
   * `get_comments`: without a truthy target it fails before the remote call
   * (wrapped, the check being inside the `try`); otherwise one record per
   * comment in order, or the first failure, wrapped.
   */
  method GetComments(args: Args, list: Kwargs -> Result<seq<RemoteComment>, string>)
    returns (r: Result<seq<Record>, string>)
    ensures NoTarget(args) ==> r == Failure(Wrapped(GetCommentsPrefix, NoTargetError))
    ensures !NoTarget(args) ==>
      var out := list(CommentQuery(args).value);
      && (out.Failure? ==> r == Failure(Wrapped(GetCommentsPrefix, out.error)))
      && (out.Success? && Collect(CommentRecord, out.value).Failure? ==>
            r == Failure(Wrapped(GetCommentsPrefix, Collect(CommentRecord, out.value).error)))
      && (out.Success? && Collect(CommentRecord, out.value).Success? ==>
            r == Collect(CommentRecord, out.value))
  {
    var query := BuildCommentQuery(args);
    if query.Failure? {
      return Failure(Wrapped(GetCommentsPrefix, query.error));
    }
    var comments := list(query.value);
    if comments.Failure? {
      return Failure(Wrapped(GetCommentsPrefix, comments.error));
    }
    var records := Collect(CommentRecord, comments.value);
    if records.Failure? {
      return Failure(Wrapped(GetCommentsPrefix, records.error));
    }
    r := records;
  }

  const AddCommentPrefix: string := "Failed to add Todoist comment: "

  /** `add_comment`: the same target check, then the created comment's record. */
  method AddComment(content: Value, args: Args, add: Kwargs -> Result<RemoteComment, string>)
    returns (r: Result<Record, string>)
    ensures NoTarget(args) ==> r == Failure(Wrapped(AddCommentPrefix, NoTargetError))
    ensures !NoTarget(args) ==>
      var out := add(CommentData(content, args).value);
      && (out.Failure? ==> r == Failure(Wrapped(AddCommentPrefix, out.error)))
      && (out.Success? && CommentRecord(out.value).Failure? ==>
            r == Failure(Wrapped(AddCommentPrefix, CommentRecord(out.value).error)))
      && (out.Success? && CommentRecord(out.value).Success? ==> r == CommentRecord(out.value))
  {
    var data := BuildCommentData(content, args);
    if data.Failure? {
      return Failure(Wrapped(AddCommentPrefix, data.error));
    }
    var comment := add(data.value);
    if comment.Failure? {
      return Failure(Wrapped(AddCommentPrefix, comment.error));
    }
    var record := CommentToDict(comment.value);
    if record.Failure? {
      return Failure(Wrapped(AddCommentPrefix, record.error));
    }
    r := record;
  }
}
