/**
 * The markdown presenter of `TodoistResources`: each resource lists remote
 * objects, turns them into plain records, and renders the records as a
 * markdown table followed by a raw-data block. It returns a
 * `(text, mime type)` pair and never raises: an empty list yields a
 * plain-text notice, and any exception yields a plain-text error document.
 *
 * Exceptions are modelled as `Failure(message)`, where the message is the
 * `str(e)` the source puts in the error document. The remote listing calls,
 * `repr` (how the f-strings show a list or dict) and `json.dumps` are given
 * functions.
 */
module Resources {
  import opened Wrappers
  import opened Values
  import opened Remote
  import opened Normalize
  import opened Lists
  import opened Params
  import opened TaskResources

  /** What a resource returns: its text and its mime type. */
  datatype Document = Document(body: string, mime: string)

  const Markdown: string := "text/markdown"
  const PlainText: string := "text/plain"

  /** The document an exception turns into: `f"Error accessing Todoist {what}: {str(e)}"`. */
  function ErrorDocument(what: string, e: string): (doc: Document)
    ensures doc.mime == PlainText
    ensures var h := "Error accessing Todoist " + what + ": ";
      h <= doc.body && doc.body[|h|..] == e
  {
    Document("Error accessing Todoist " + what + ": " + e, PlainText)
  }

  const RawDataOpen: string := "\n\n<details>\n<summary>Raw Data (Click to expand)</summary>\n\n```json\n"
  const RawDataClose: string := "\n```\n</details>\n"

  /** The cells after the leading bar: `" c |"` for each cell. */
  function CellsFrom(cells: seq<string>): string
  {
    if cells == [] then "" else " " + cells[0] + " |" + CellsFrom(cells[1..])
  }

  /** One table line `| c1 | c2 | ... |` and its newline. */
  function Cells(cells: seq<string>): (line: string)
    ensures |line| >= 2 && line[0] == '|' && line[|line| - 1] == '\n'
  {
    "|" + CellsFrom(cells) + "\n"
  }

  /** A three-cell line is `f"| {a} | {b} | {c} |\n"`. */
  lemma CellsThree(a: string, b: string, c: string)
    ensures Cells([a, b, c]) == "| " + a + " | " + b + " | " + c + " |\n"
  {
    assert CellsFrom([c]) == " " + c + " |" + CellsFrom([]);
    assert CellsFrom([b, c]) == " " + b + " |" + CellsFrom([c]);
    assert CellsFrom([a, b, c]) == " " + a + " |" + CellsFrom([b, c]);
  }

  /** A four-cell line is `f"| {a} | {b} | {c} | {d} |\n"`. */
  lemma CellsFour(a: string, b: string, c: string, d: string)
    ensures Cells([a, b, c, d]) == "| " + a + " | " + b + " | " + c + " | " + d + " |\n"
  {
    assert CellsFrom([d]) == " " + d + " |" + CellsFrom([]);
    assert CellsFrom([c, d]) == " " + c + " |" + CellsFrom([d]);
    assert CellsFrom([b, c, d]) == " " + b + " |" + CellsFrom([c, d]);
    assert CellsFrom([a, b, c, d]) == " " + a + " |" + CellsFrom([b, c, d]);
  }

  // ---------------------------------------------------------------- the shared table

  /** The heading, then one line per record, in order; the first row that raises stops it. */
  function RenderRows(heading: string, row: Record -> Result<string, string>, data: seq<Record>): Result<string, string>
  {
    match Collect(row, data)
    case Failure(e) => Failure(e)
    case Success(rows) => Success(heading + Concat(rows))
  }

  /**
   * What a resource returns for its records: a plain-text notice when there
   * are none, otherwise the table and the raw-data block as markdown, or the
   * error document of the first exception.
   */
  function Present(
    what: string, heading: string, empty: string, data: seq<Record>,
    row: Record -> Result<string, string>, dumps: Value -> Result<string, string>): Document
  {
    if data == [] then Document(empty, PlainText)
    else
      match RenderRows(heading, row, data)
      case Failure(e) => ErrorDocument(what, e)
      case Success(table) =>
        match dumps(RecordList(data))
        case Failure(e) => ErrorDocument(what, e)
        case Success(json) => Document(table + RawDataOpen + json + RawDataClose, Markdown)
  }

  /**
   * The result is markdown exactly when there are records and neither a row
   * nor the serialiser raises; it is then the heading, one row per record in
   * order, and the raw-data block. Otherwise it is the empty notice (no
   * records) or an error document.
   */
  lemma PresentSpec(
    what: string, heading: string, empty: string, data: seq<Record>,
    row: Record -> Result<string, string>, dumps: Value -> Result<string, string>)
    ensures data == [] ==> Present(what, heading, empty, data, row, dumps) == Document(empty, PlainText)
    ensures Present(what, heading, empty, data, row, dumps).mime == Markdown <==>
      data != [] && Collect(row, data).Success? && dumps(RecordList(data)).Success?
    ensures Present(what, heading, empty, data, row, dumps).mime == Markdown ==>
      var rows := Collect(row, data).value;
      && |rows| == |data|
      && (forall i :: 0 <= i < |data| ==> row(data[i]) == Success(rows[i]))
      && Present(what, heading, empty, data, row, dumps).body ==
           heading + Concat(rows) + RawDataOpen + dumps(RecordList(data)).value + RawDataClose
    ensures Present(what, heading, empty, data, row, dumps).mime != Markdown ==>
      Present(what, heading, empty, data, row, dumps).mime == PlainText
    ensures data != [] && Collect(row, data).Failure? ==>
      Present(what, heading, empty, data, row, dumps) == ErrorDocument(what, Collect(row, data).error)
  {
    assert Markdown != PlainText by {
      assert Markdown[5] != PlainText[5];
    }
  }

  /** `markdown = heading; for rec in data: markdown += row(rec)`. */
  method AppendRows(heading: string, row: Record -> Result<string, string>, data: seq<Record>)
    returns (r: Result<string, string>)
    ensures r == RenderRows(heading, row, data)
  {
    var markdown := heading;
    ghost var rows: seq<string> := [];
    for i := 0 to |data|
      invariant Collect(row, data[..i]) == Success(rows)
      invariant markdown == heading + Concat(rows)
    {
      var line := row(data[i]);
      if line.Failure? {
        CollectFailsAt(row, data, i);
        return Failure(line.error);
      }
      CollectStep(row, data, i, rows, line.value);
      ConcatStep(rows, line.value);
      markdown := markdown + line.value;
      rows := rows + [line.value];
    }
    assert data[..|data|] == data;
    r := Success(markdown);
  }

  /** The `if data: ... else: ...` tail every resource shares. */
  method Render(
    what: string, heading: string, empty: string, data: seq<Record>,
    row: Record -> Result<string, string>, dumps: Value -> Result<string, string>)
    returns (doc: Document)
    ensures doc == Present(what, heading, empty, data, row, dumps)
  {
    if data == [] {
      return Document(empty, PlainText);
    }
    var table := AppendRows(heading, row, data);
    if table.Failure? {
      return ErrorDocument(what, table.error);
    }
    var json := dumps(RecordList(data));
    if json.Failure? {
      return ErrorDocument(what, json.error);
    }
    var markdown := table.value + RawDataOpen;
    markdown := markdown + json.value;
    markdown := markdown + RawDataClose;
    doc := Document(markdown, Markdown);
  }

  // ---------------------------------------------------------------- tasks

  /** The priority names of the source's `priority_map`. */
  const PriorityNames: map<int, string> := map[1 := "Normal", 2 := "Medium", 3 := "High", 4 := "Urgent"]

  /** Values a dict lookup can hash: everything but lists and dicts. */
  predicate Hashable(v: Value)
  {
    !v.List? && !v.Dict?
  }

  /** The int a hashable value equals as a dict key (`True == 1`, `False == 0`), if any. */
  function AsIntKey(v: Value): Option<int>
  {
    match v
    case Int(i) => Some(i)
    case Bool(b) => Some(if b then 1 else 0)
    case _ => None
  }

  /** `priority_map.get(priority, "Normal")`: a list or dict raises TypeError. */
  function PriorityLabel(p: Value): (r: Result<string, string>)
    ensures r.Success? <==> Hashable(p)
    ensures r.Failure? ==> r.error == "unhashable type: '" + TypeName(p) + "'"
  {
    if !Hashable(p) then Failure("unhashable type: '" + TypeName(p) + "'")
    else
      var key := AsIntKey(p);
      Success(if key.Some? && key.value in PriorityNames then PriorityNames[key.value] else "Normal")
  }

  /** 1 Normal, 2 Medium, 3 High, 4 Urgent; every other hashable priority is Normal. */
  lemma PriorityMapping(p: Value)
    ensures PriorityLabel(Int(1)) == Success("Normal")
    ensures PriorityLabel(Int(2)) == Success("Medium")
    ensures PriorityLabel(Int(3)) == Success("High")
    ensures PriorityLabel(Int(4)) == Success("Urgent")
    ensures Hashable(p) && p != Int(2) && p != Int(3) && p != Int(4) ==> PriorityLabel(p) == Success("Normal")
  {
  }

  /** The due column: "None" unless the due entry is truthy, then its `date` or "". */
  function DueCell(due: Value, repr: Value -> string): (r: Result<string, string>)
    ensures due.Null? || due.Dict? ==> r.Success?
    ensures !Truthy(due) ==> r == Success("None")
    ensures Truthy(due) && due.Dict? && Date !in due.entries ==> r == Success("")
  {
    if !Truthy(due) then Success("None")
    else if due.Dict? then Success(if Date in due.entries then Text(due.entries[Date], repr) else "")
    else Failure(AttributeErrorText(TypeName(due), "get"))
  }

  /** One task line: id, content, due and priority, evaluated in the source's order. */
  function TaskRow(task: Record, repr: Value -> string): (r: Result<string, string>)
    ensures r.Success? <==>
      Id in task && Content in task && Due in task && Priority in task &&
      DueCell(task[Due], repr).Success? && Hashable(task[Priority])
    ensures r.Success? ==>
      r.value == "| " + Text(task[Id], repr) + " | " + Text(task[Content], repr) + " | " +
        DueCell(task[Due], repr).value + " | " + PriorityLabel(task[Priority]).value + " |\n"
  {
    match Lookup(task, Due)
    case Failure(e) => Failure(e)
    case Success(due) =>
      match DueCell(due, repr)
      case Failure(e) => Failure(e)
      case Success(dueStr) =>
        match Lookup(task, Priority)
        case Failure(e) => Failure(e)
        case Success(p) =>
          match PriorityLabel(p)
          case Failure(e) => Failure(e)
          case Success(priorityStr) =>
            match Lookup(task, Id)
            case Failure(e) => Failure(e)
            case Success(id) =>
              match Lookup(task, Content)
              case Failure(e) => Failure(e)
              case Success(content) =>
                CellsFour(Text(id, repr), Text(content, repr), dueStr, priorityStr);
                Success(Cells([Text(id, repr), Text(content, repr), dueStr, priorityStr]))
  }

  function TaskRowWith(repr: Value -> string): Record -> Result<string, string>
  {
    task => TaskRow(task, repr)
  }

  /**
   * The due column never raises for a due entry a task record can hold, and
   * a task line raises exactly when its priority cannot be hashed.
   */
  lemma TaskRowSpec(task: Record, repr: Value -> string)
    requires Id in task && Content in task && Priority in task && Due in task
    requires task[Due].Null? || task[Due].Dict?
    ensures DueCell(task[Due], repr).Success?
    ensures TaskRow(task, repr).Success? <==> Hashable(task[Priority])
    ensures TaskRow(task, repr).Failure? ==>
      TaskRow(task, repr).error == "unhashable type: '" + TypeName(task[Priority]) + "'"
  {
  }

  /**
   * What the due column shows for a task's due attribute, read off the
   * remote object: "None" for no due date and for a due object with none of
   * the five sub-attributes (its dict is empty, hence falsy), else the date,
   * or "" when the due object has no date.
   */
  function DueShown(due: DueValue, repr: Value -> string): string
  {
    match due
    case NullDue => "None"
    case DueObject(f) =>
      if NoDueFields(f) then "None"
      else if Date in f then Text(f[Date], repr)
      else ""
  }

  /** A due object with none of the five sub-attributes. */
  predicate NoDueFields(f: map<Key, Value>)
  {
    Date !in f && DueText !in f && IsRecurring !in f && Datetime !in f && Timezone !in f
  }

  /** The dict of a due object's present sub-fields is empty exactly when it has none of them. */
  lemma DueDictEmpty(f: map<Key, Value>)
    ensures CopyPresent(f, DueAttrs) == map[] <==> NoDueFields(f)
  {
    var d := CopyPresent(f, DueAttrs);
    if d != map[] {
      var k :| k in d;
      assert k in DueAttrs && k in f;
    }
    if Date in f {
      assert DueAttrs[0] in d;
    } else if DueText in f {
      assert DueAttrs[1] in d;
    } else if IsRecurring in f {
      assert DueAttrs[2] in d;
    } else if Datetime in f {
      assert DueAttrs[3] in d;
    } else if Timezone in f {
      assert DueAttrs[4] in d;
    }
  }

  /** The due column shows what `DueShown` reads off the task's due attribute. */
  lemma DueCellShows(due: DueValue, repr: Value -> string)
    ensures DueCell(DueEntry(Some(due)), repr) == Success(DueShown(due, repr))
  {
    if due.DueObject? {
      DueDictEmpty(due.attrs);
      assert Date in DueAttrs;
    }
  }

  const TasksHeading: string :=
    "# Todoist Tasks\n\n| ID | Task | Due | Priority |\n|:---|:-----|:----|:--------|\n"

  /** What `get_tasks_resource` returns, given the listing call the SDK makes. */
  function TasksDocument(
    args: Args, listTasks: Kwargs -> Result<seq<RemoteTask>, string>,
    repr: Value -> string, dumps: Value -> Result<string, string>): Document
  {
    match listTasks(TaskFilter(args))
    case Failure(e) => ErrorDocument("tasks", e)
    case Success(tasks) =>
      match Collect(TaskResourceRecord, tasks)
      case Failure(e) => ErrorDocument("tasks", e)
      case Success(data) => Present("tasks", TasksHeading, "No tasks found.", data, TaskRowWith(repr), dumps)
  }

  /**
   * The listing call gets exactly the truthy filters; a failing call, and a
   * task lacking an attribute, become error documents; no tasks give the
   * plain-text notice; the result is always markdown or plain text.
   */
  lemma TasksDocumentSpec(
    args: Args, listTasks: Kwargs -> Result<seq<RemoteTask>, string>,
    repr: Value -> string, dumps: Value -> Result<string, string>)
    ensures listTasks(TaskFilter(args)).Failure? ==>
      TasksDocument(args, listTasks, repr, dumps) == ErrorDocument("tasks", listTasks(TaskFilter(args)).error)
    ensures listTasks(TaskFilter(args)) == Success([]) ==>
      TasksDocument(args, listTasks, repr, dumps) == Document("No tasks found.", PlainText)
    ensures listTasks(TaskFilter(args)).Success? && Collect(TaskResourceRecord, listTasks(TaskFilter(args)).value).Failure? ==>
      TasksDocument(args, listTasks, repr, dumps) ==
        ErrorDocument("tasks", Collect(TaskResourceRecord, listTasks(TaskFilter(args)).value).error)
    ensures TasksDocument(args, listTasks, repr, dumps).mime == Markdown ||
            TasksDocument(args, listTasks, repr, dumps).mime == PlainText
  {
    match listTasks(TaskFilter(args))
    case Failure(_) =>
    case Success(tasks) =>
      match Collect(TaskResourceRecord, tasks)
      case Failure(_) =>
      case Success(data) =>
        PresentSpec("tasks", TasksHeading, "No tasks found.", data, TaskRowWith(repr), dumps);
  }

  /** The table of listed tasks renders exactly when every task's priority can be hashed. */
  lemma TaskRowsRender(tasks: seq<RemoteTask>, repr: Value -> string)
    requires Collect(TaskResourceRecord, tasks).Success?
    ensures Collect(TaskRowWith(repr), Collect(TaskResourceRecord, tasks).value).Success? <==>
      forall i :: 0 <= i < |tasks| ==> Priority in tasks[i].attrs && Hashable(tasks[i].attrs[Priority])
  {
    var data := Collect(TaskResourceRecord, tasks).value;
    forall i | 0 <= i < |tasks|
      ensures TaskRowWith(repr)(data[i]).Success? <==>
        Priority in tasks[i].attrs && Hashable(tasks[i].attrs[Priority])
    {
      assert data[i] == TaskResourceRecord(tasks[i]).value;
      assert TaskRowWith(repr)(data[i]) == TaskRow(data[i], repr);
      TaskRecordRenders(tasks[i], repr);
    }
  }

  /** A task's line renders exactly when its priority can be hashed. */
  lemma TaskRecordRenders(t: RemoteTask, repr: Value -> string)
    requires TaskResourceRecord(t).Success?
    ensures TaskRow(TaskResourceRecord(t).value, repr).Success? <==>
      Priority in t.attrs && Hashable(t.attrs[Priority])
  {
    TaskResourceRecordDue(t);
    TaskResourceRecordValues(t);
    assert Priority in TaskAttrs;
    TaskRowSpec(TaskResourceRecord(t).value, repr);
  }

  /**
   * The tasks resource is markdown exactly when the listing call succeeds
   * with some tasks, each has the attributes the record reads, each priority
   * can be hashed, and the records serialise.
   */
  lemma TasksDocumentMarkdown(
    args: Args, listTasks: Kwargs -> Result<seq<RemoteTask>, string>,
    repr: Value -> string, dumps: Value -> Result<string, string>)
    ensures TasksDocument(args, listTasks, repr, dumps).mime == Markdown <==>
      var listed := listTasks(TaskFilter(args));
      && listed.Success? && listed.value != []
      && Collect(TaskResourceRecord, listed.value).Success?
      && (forall i :: 0 <= i < |listed.value| ==>
            Priority in listed.value[i].attrs && Hashable(listed.value[i].attrs[Priority]))
      && dumps(RecordList(Collect(TaskResourceRecord, listed.value).value)).Success?
  {
    var listed := listTasks(TaskFilter(args));
    assert Markdown != PlainText by {
      assert Markdown[5] != PlainText[5];
    }
    if listed.Success? && Collect(TaskResourceRecord, listed.value).Success? {
      var data := Collect(TaskResourceRecord, listed.value).value;
      TaskRowsRender(listed.value, repr);
      PresentSpec("tasks", TasksHeading, "No tasks found.", data, TaskRowWith(repr), dumps);
    }
  }

  /** `get_tasks_resource`: the filters, the listing call, the record loop, then the table. */
  method GetTasksResource(
    args: Args, listTasks: Kwargs -> Result<seq<RemoteTask>, string>,
    repr: Value -> string, dumps: Value -> Result<string, string>)
    returns (doc: Document)
    ensures doc == TasksDocument(args, listTasks, repr, dumps)
  {
    var kwargs := BuildTaskFilter(args);
    var listed := listTasks(kwargs);
    if listed.Failure? {
      return ErrorDocument("tasks", listed.error);
    }
    var tasks := listed.value;
    var tasksData: seq<Record> := [];
    for i := 0 to |tasks|
      invariant Collect(TaskResourceRecord, tasks[..i]) == Success(tasksData)
    {
      var taskDict := TaskToResourceDict(tasks[i]);
      if taskDict.Failure? {
        CollectFailsAt(TaskResourceRecord, tasks, i);
        return ErrorDocument("tasks", taskDict.error);
      }
      CollectStep(TaskResourceRecord, tasks, i, tasksData, taskDict.value);
      tasksData := tasksData + [taskDict.value];
    }
    assert tasks[..|tasks|] == tasks;
    doc := Render("tasks", TasksHeading, "No tasks found.", tasksData, TaskRowWith(repr), dumps);
  }

  // ---------------------------------------------------------------- projects

  /** `"★" if flag else ""`, and likewise for "✓". */
  function Mark(flag: Value, mark: string): (m: string)
    requires mark != ""
    ensures m == mark <==> Truthy(flag)
    ensures m == "" <==> !Truthy(flag)
  {
    if Truthy(flag) then mark else ""
  }

  const Star: string := "\U{2605}"
  const Check: string := "\U{2713}"

  /** One project line: id, name, the favourite star and the inbox check. */
  function ProjectRow(project: Record, repr: Value -> string): (r: Result<string, string>)
    ensures r.Success? <==> Id in project && Name in project && IsFavorite in project && IsInboxProject in project
    ensures r.Success? ==>
      r.value == "| " + Text(project[Id], repr) + " | " + Text(project[Name], repr) + " | " +
        Mark(project[IsFavorite], Star) + " | " + Mark(project[IsInboxProject], Check) + " |\n"
  {
    match Lookup(project, IsFavorite)
    case Failure(e) => Failure(e)
    case Success(fav) =>
      match Lookup(project, IsInboxProject)
      case Failure(e) => Failure(e)
      case Success(inbox) =>
        match Lookup(project, Id)
        case Failure(e) => Failure(e)
        case Success(id) =>
          match Lookup(project, Name)
          case Failure(e) => Failure(e)
          case Success(name) =>
            CellsFour(Text(id, repr), Text(name, repr), Mark(fav, Star), Mark(inbox, Check));
            Success(Cells([Text(id, repr), Text(name, repr), Mark(fav, Star), Mark(inbox, Check)]))
  }

  function ProjectRowWith(repr: Value -> string): Record -> Result<string, string>
  {
    project => ProjectRow(project, repr)
  }

  /** Every normalized project has the keys its table line reads. */
  lemma ProjectRecordRenders(p: RemoteProject, repr: Value -> string)
    requires ProjectRecord(p).Success?
    ensures ProjectRow(ProjectRecord(p).value, repr).Success?
  {
    RequireAttrsSpec("Project", p.attrs, ProjectAttrs);
    assert Id in ProjectAttrs && Name in ProjectAttrs && IsFavorite in ProjectAttrs && IsInboxProject in ProjectAttrs;
  }

  const ProjectsHeading: string :=
    "# Todoist Projects\n\n| ID | Project Name | Is Favorite | Is Inbox |\n|:---|:------------|:------------|:--------|\n"

  /** What `get_projects_resource` returns for the outcome of the listing call. */
  function ProjectsDocument(
    projects: Result<seq<RemoteProject>, string>,
    repr: Value -> string, dumps: Value -> Result<string, string>): Document
  {
    match projects
    case Failure(e) => ErrorDocument("projects", e)
    case Success(ps) =>
      match Collect(ProjectRecord, ps)
      case Failure(e) => ErrorDocument("projects", e)
      case Success(data) => Present("projects", ProjectsHeading, "No projects found.", data, ProjectRowWith(repr), dumps)
  }

  /** Projects never fail to render once normalized, so the outcome depends only on the call, the records and the serialiser. */
  lemma ProjectsDocumentSpec(
    projects: Result<seq<RemoteProject>, string>,
    repr: Value -> string, dumps: Value -> Result<string, string>)
    ensures projects.Failure? ==> ProjectsDocument(projects, repr, dumps) == ErrorDocument("projects", projects.error)
    ensures projects == Success([]) ==> ProjectsDocument(projects, repr, dumps) == Document("No projects found.", PlainText)
    ensures ProjectsDocument(projects, repr, dumps).mime == Markdown <==>
      projects.Success? && projects.value != [] && Collect(ProjectRecord, projects.value).Success? &&
      dumps(RecordList(Collect(ProjectRecord, projects.value).value)).Success?
    ensures ProjectsDocument(projects, repr, dumps).mime == Markdown ||
            ProjectsDocument(projects, repr, dumps).mime == PlainText
  {
    if projects.Success? && Collect(ProjectRecord, projects.value).Success? {
      var ps := projects.value;
      var data := Collect(ProjectRecord, ps).value;
      forall i | 0 <= i < |data|
        ensures ProjectRowWith(repr)(data[i]).Success?
      {
        ProjectRecordRenders(ps[i], repr);
      }
      PresentSpec("projects", ProjectsHeading, "No projects found.", data, ProjectRowWith(repr), dumps);
    }
  }

  /** `get_projects_resource`: the listing call, the record comprehension, then the table. */
  method GetProjectsResource(
    projects: Result<seq<RemoteProject>, string>,
    repr: Value -> string, dumps: Value -> Result<string, string>)
    returns (doc: Document)
    ensures doc == ProjectsDocument(projects, repr, dumps)
  {
    if projects.Failure? {
      return ErrorDocument("projects", projects.error);
    }
    var projectsData := Collect(ProjectRecord, projects.value);
    if projectsData.Failure? {
      return ErrorDocument("projects", projectsData.error);
    }
    doc := Render("projects", ProjectsHeading, "No projects found.", projectsData.value, ProjectRowWith(repr), dumps);
  }

  // ---------------------------------------------------------------- sections

  /** One section line: id, name and order. */
  function SectionRow(section: Record, repr: Value -> string): (r: Result<string, string>)
    ensures r.Success? <==> Id in section && Name in section && Order in section
    ensures r.Success? ==>
      r.value == "| " + Text(section[Id], repr) + " | " + Text(section[Name], repr) + " | " +
        Text(section[Order], repr) + " |\n"
  {
    match Lookup(section, Id)
    case Failure(e) => Failure(e)
    case Success(id) =>
      match Lookup(section, Name)
      case Failure(e) => Failure(e)
      case Success(name) =>
        match Lookup(section, Order)
        case Failure(e) => Failure(e)
        case Success(order) =>
          CellsThree(Text(id, repr), Text(name, repr), Text(order, repr));
          Success(Cells([Text(id, repr), Text(name, repr), Text(order, repr)]))
  }

  function SectionRowWith(repr: Value -> string): Record -> Result<string, string>
  {
    section => SectionRow(section, repr)
  }

  /** Every normalized section renders. */
  lemma SectionRecordRenders(sec: RemoteSection, repr: Value -> string)
    requires SectionRecord(sec).Success?
    ensures SectionRow(SectionRecord(sec).value, repr).Success?
  {
    RequireAttrsSpec("Section", sec.attrs, SectionAttrs);
    assert Id in SectionAttrs && Name in SectionAttrs && Order in SectionAttrs;
  }

  function SectionsHeading(projectId: string): string
  {
    "# Sections for Project " + projectId + "\n\n| ID | Section Name | Order |\n|:---|:------------|:-----|\n"
  }

  /** What `get_sections_resource(project_id)` returns, given the listing call. */
  function SectionsDocument(
    projectId: string, listSections: string -> Result<seq<RemoteSection>, string>,
    repr: Value -> string, dumps: Value -> Result<string, string>): Document
  {
    match listSections(projectId)
    case Failure(e) => ErrorDocument("sections", e)
    case Success(ss) =>
      match Collect(SectionRecord, ss)
      case Failure(e) => ErrorDocument("sections", e)
      case Success(data) =>
        Present("sections", SectionsHeading(projectId), "No sections found for project " + projectId + ".",
                data, SectionRowWith(repr), dumps)
  }

  lemma SectionsDocumentSpec(
    projectId: string, listSections: string -> Result<seq<RemoteSection>, string>,
    repr: Value -> string, dumps: Value -> Result<string, string>)
    ensures listSections(projectId).Failure? ==>
      SectionsDocument(projectId, listSections, repr, dumps) == ErrorDocument("sections", listSections(projectId).error)
    ensures listSections(projectId) == Success([]) ==>
      SectionsDocument(projectId, listSections, repr, dumps) ==
        Document("No sections found for project " + projectId + ".", PlainText)
    ensures SectionsDocument(projectId, listSections, repr, dumps).mime == Markdown <==>
      listSections(projectId).Success? && listSections(projectId).value != [] &&
      Collect(SectionRecord, listSections(projectId).value).Success? &&
      dumps(RecordList(Collect(SectionRecord, listSections(projectId).value).value)).Success?
    ensures SectionsDocument(projectId, listSections, repr, dumps).mime == Markdown ||
            SectionsDocument(projectId, listSections, repr, dumps).mime == PlainText
  {
    var listed := listSections(projectId);
    if listed.Success? && Collect(SectionRecord, listed.value).Success? {
      var data := Collect(SectionRecord, listed.value).value;
      forall i | 0 <= i < |data|
        ensures SectionRowWith(repr)(data[i]).Success?
      {
        SectionRecordRenders(listed.value[i], repr);
      }
      PresentSpec("sections", SectionsHeading(projectId), "No sections found for project " + projectId + ".",
                  data, SectionRowWith(repr), dumps);
    }
  }

  /** `get_sections_resource`: the listing call, the record comprehension, then the table. */
  method GetSectionsResource(
    projectId: string, listSections: string -> Result<seq<RemoteSection>, string>,
    repr: Value -> string, dumps: Value -> Result<string, string>)
    returns (doc: Document)
    ensures doc == SectionsDocument(projectId, listSections, repr, dumps)
  {
    var sections := listSections(projectId);
    if sections.Failure? {
      return ErrorDocument("sections", sections.error);
    }
    var sectionsData := Collect(SectionRecord, sections.value);
    if sectionsData.Failure? {
      return ErrorDocument("sections", sectionsData.error);
    }
    doc := Render("sections", SectionsHeading(projectId), "No sections found for project " + projectId + ".",
                  sectionsData.value, SectionRowWith(repr), dumps);
  }

  // ---------------------------------------------------------------- labels

  /** The label attributes this resource reads directly; unlike `_label_to_dict` it reads `is_favorite`. */
  const LabelResourceAttrs: seq<Key> := [Id, Name, Color, Order, IsFavorite]

  function LabelResourceRecord(l: RemoteLabel): Result<Record, string>
  {
    RequireAttrs("Label", l.attrs, LabelResourceAttrs)
  }

  /**
   * A label becomes a record exactly when it has the five attributes, and the
   * record then holds exactly those, unchanged; otherwise the AttributeError
   * names the first one missing.
   */
  lemma LabelResourceRecordSpec(l: RemoteLabel)
    ensures LabelResourceRecord(l).Success? <==> forall k :: k in LabelResourceAttrs ==> k in l.attrs
    ensures LabelResourceRecord(l).Success? ==>
      forall k :: k in LabelResourceRecord(l).value <==> k in LabelResourceAttrs
    ensures LabelResourceRecord(l).Success? ==>
      forall k :: k in LabelResourceRecord(l).value ==> LabelResourceRecord(l).value[k] == l.attrs[k]
    ensures LabelResourceRecord(l).Failure? ==>
      exists i :: 0 <= i < |LabelResourceAttrs| && LabelResourceAttrs[i] !in l.attrs &&
        LabelResourceRecord(l).error == AttributeErrorText("Label", LabelResourceAttrs[i].Keyword()) &&
        forall j :: 0 <= j < i ==> LabelResourceAttrs[j] in l.attrs
  {
    RequireAttrsSpec("Label", l.attrs, LabelResourceAttrs);
  }

  /** One label line: id, name, colour and the favourite star. */
  function LabelRow(labelRec: Record, repr: Value -> string): (r: Result<string, string>)
    ensures r.Success? <==> Id in labelRec && Name in labelRec && Color in labelRec && IsFavorite in labelRec
    ensures r.Success? ==>
      r.value == "| " + Text(labelRec[Id], repr) + " | " + Text(labelRec[Name], repr) + " | " +
        Text(labelRec[Color], repr) + " | " + Mark(labelRec[IsFavorite], Star) + " |\n"
  {
    match Lookup(labelRec, IsFavorite)
    case Failure(e) => Failure(e)
    case Success(fav) =>
      match Lookup(labelRec, Id)
      case Failure(e) => Failure(e)
      case Success(id) =>
        match Lookup(labelRec, Name)
        case Failure(e) => Failure(e)
        case Success(name) =>
          match Lookup(labelRec, Color)
          case Failure(e) => Failure(e)
          case Success(color) =>
            CellsFour(Text(id, repr), Text(name, repr), Text(color, repr), Mark(fav, Star));
            Success(Cells([Text(id, repr), Text(name, repr), Text(color, repr), Mark(fav, Star)]))
  }

  function LabelRowWith(repr: Value -> string): Record -> Result<string, string>
  {
    labelRec => LabelRow(labelRec, repr)
  }

  /** Every label record of this resource renders. */
  lemma LabelRecordRenders(l: RemoteLabel, repr: Value -> string)
    requires LabelResourceRecord(l).Success?
    ensures LabelRow(LabelResourceRecord(l).value, repr).Success?
  {
    RequireAttrsSpec("Label", l.attrs, LabelResourceAttrs);
    assert Id in LabelResourceAttrs && Name in LabelResourceAttrs && Color in LabelResourceAttrs;
    assert IsFavorite in LabelResourceAttrs;
  }

  const LabelsHeading: string :=
    "# Todoist Labels\n\n| ID | Label Name | Color | Is Favorite |\n|:---|:-----------|:------|:-----------|\n"

  /** What `get_labels_resource` returns for the outcome of the listing call. */
  function LabelsDocument(
    labels: Result<seq<RemoteLabel>, string>,
    repr: Value -> string, dumps: Value -> Result<string, string>): Document
  {
    match labels
    case Failure(e) => ErrorDocument("labels", e)
    case Success(ls) =>
      match Collect(LabelResourceRecord, ls)
      case Failure(e) => ErrorDocument("labels", e)
      case Success(data) => Present("labels", LabelsHeading, "No labels found.", data, LabelRowWith(repr), dumps)
  }

  lemma LabelsDocumentSpec(
    labels: Result<seq<RemoteLabel>, string>,
    repr: Value -> string, dumps: Value -> Result<string, string>)
    ensures labels.Failure? ==> LabelsDocument(labels, repr, dumps) == ErrorDocument("labels", labels.error)
    ensures labels == Success([]) ==> LabelsDocument(labels, repr, dumps) == Document("No labels found.", PlainText)
    ensures LabelsDocument(labels, repr, dumps).mime == Markdown <==>
      labels.Success? && labels.value != [] && Collect(LabelResourceRecord, labels.value).Success? &&
      dumps(RecordList(Collect(LabelResourceRecord, labels.value).value)).Success?
    ensures LabelsDocument(labels, repr, dumps).mime == Markdown ||
            LabelsDocument(labels, repr, dumps).mime == PlainText
  {
    if labels.Success? && Collect(LabelResourceRecord, labels.value).Success? {
      var data := Collect(LabelResourceRecord, labels.value).value;
      forall i | 0 <= i < |data|
        ensures LabelRowWith(repr)(data[i]).Success?
      {
        LabelRecordRenders(labels.value[i], repr);
      }
      PresentSpec("labels", LabelsHeading, "No labels found.", data, LabelRowWith(repr), dumps);
    }
  }

  /** `get_labels_resource`: the listing call, the record comprehension, then the table. */
  method GetLabelsResource(
    labels: Result<seq<RemoteLabel>, string>,
    repr: Value -> string, dumps: Value -> Result<string, string>)
    returns (doc: Document)
    ensures doc == LabelsDocument(labels, repr, dumps)
  {
    if labels.Failure? {
      return ErrorDocument("labels", labels.error);
    }
    var labelsData := Collect(LabelResourceRecord, labels.value);
    if labelsData.Failure? {
      return ErrorDocument("labels", labelsData.error);
    }
    doc := Render("labels", LabelsHeading, "No labels found.", labelsData.value, LabelRowWith(repr), dumps);
  }
}
