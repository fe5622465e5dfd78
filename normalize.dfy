/**
 * The response normalizers of `TodoistTools` (`_task_to_dict`,
 * `_project_to_dict`, `_section_to_dict`, `_label_to_dict`,
 * `_comment_to_dict`): each turns one remote object into a plain record.
 * `_task_to_dict` probes every attribute with `hasattr` and never raises;
 * `_label_to_dict` probes only `favorite` and `_comment_to_dict` only its two
 * targets. Every other attribute is read directly, so a missing one raises
 * AttributeError, modelled as a `Failure` carrying its message.
 */
module Normalize {
  import opened Wrappers
  import opened Values
  import opened Remote

  /** The top-level task attributes `_task_to_dict` copies when present, in its order. */
  const TaskAttrs: seq<Key> :=
    [Id, Content, Description, Url, CreatedAt, Priority, ProjectId, SectionId, ParentId]

  /** The due-date attributes copied when present, in order. */
  const DueAttrs: seq<Key> := [Date, DueText, IsRecurring, Datetime, Timezone]

  const ProjectAttrs: seq<Key> :=
    [Id, Name, Color, IsFavorite, IsInboxProject, Order, ParentId, Url]

  const SectionAttrs: seq<Key> := [Id, Name, Order, ProjectId]

  /** The label attributes read directly; `favorite` is probed separately. */
  const LabelAttrs: seq<Key> := [Id, Name, Color, Order]

  /** The comment attributes read directly; the targets are probed separately. */
  const CommentAttrs: seq<Key> := [Id, Content, PostedAt]

  /** The `due` entry of a task record: the present sub-fields, or None when the task has no truthy due. */
  function DueEntry(due: Option<DueValue>): (v: Value)
    ensures v == Null <==> due.None? || due.value.NullDue?
    ensures v != Null ==> v == Dict(CopyPresent(due.value.attrs, DueAttrs))
  {
    if due.Some? && due.value.DueObject? then Dict(CopyPresent(due.value.attrs, DueAttrs))
    else Null
  }

  /** What `_task_to_dict` returns for a task. */
  function TaskRecord(t: RemoteTask): (r: Record)
    ensures Due in r && Labels in r
  {
    CopyPresent(t.attrs, TaskAttrs)[Due := DueEntry(t.due)][Labels := if Labels in t.attrs then t.attrs[Labels] else List([])]
  }

  lemma TaskRecordKeys(t: RemoteTask)
    ensures TaskRecord(t).Keys == (set k | k in TaskAttrs && k in t.attrs) + {Due, Labels}
  {
  }

  lemma TaskRecordValues(t: RemoteTask)
    ensures forall k :: k in TaskAttrs && k in t.attrs ==> TaskRecord(t)[k] == t.attrs[k]
  {
  }

  lemma TaskRecordDue(t: RemoteTask)
    ensures TaskRecord(t)[Due] == Null <==> t.due.None? || t.due.value.NullDue?
    ensures t.due.Some? && t.due.value.DueObject? ==>
      TaskRecord(t)[Due].Dict? &&
      (forall k :: k in TaskRecord(t)[Due].entries <==> k in DueAttrs && k in t.due.value.attrs) &&
      (forall k :: k in TaskRecord(t)[Due].entries ==> TaskRecord(t)[Due].entries[k] == t.due.value.attrs[k])
    ensures TaskRecord(t)[Labels] == if Labels in t.attrs then t.attrs[Labels] else List([])
  {
  }

  /** `_task_to_dict`, in the source's loop form. */
  method TaskToDict(t: RemoteTask) returns (r: Record)
    ensures r == TaskRecord(t)
  {
    r := CopyAttrs(t.attrs, TaskAttrs);
    var due := DueToDict(t.due);
    r := r[Due := due];
    if Labels in t.attrs {
      r := r[Labels := t.attrs[Labels]];
    } else {
      r := r[Labels := List([])];
    }
  }

  /** The due-date block of `_task_to_dict`. */
  method DueToDict(due: Option<DueValue>) returns (v: Value)
    ensures v == DueEntry(due)
  {
    if due.Some? && due.value.DueObject? {
      var dueDict := CopyAttrs(due.value.attrs, DueAttrs);
      v := Dict(dueDict);
    } else {
      v := Null;
    }
  }

  /** `_project_to_dict`: all eight attributes, or the AttributeError of the first missing one. */
  function ProjectRecord(p: RemoteProject): Result<Record, string>
  {
    RequireAttrs("Project", p.attrs, ProjectAttrs)
  }

  /**
   * A project normalizes exactly when it has all eight attributes; the record
   * then holds exactly those, unchanged. Otherwise the AttributeError names
   * the first one missing in the literal's order.
   */
  lemma ProjectRecordSpec(p: RemoteProject)
    ensures ProjectRecord(p).Success? <==> forall k :: k in ProjectAttrs ==> k in p.attrs
    ensures ProjectRecord(p).Success? ==>
      forall k :: k in ProjectRecord(p).value <==> k in ProjectAttrs
    ensures ProjectRecord(p).Success? ==>
      forall k :: k in ProjectRecord(p).value ==> ProjectRecord(p).value[k] == p.attrs[k]
    ensures ProjectRecord(p).Failure? ==>
      exists i :: 0 <= i < |ProjectAttrs| && ProjectAttrs[i] !in p.attrs &&
        ProjectRecord(p).error == AttributeErrorText("Project", ProjectAttrs[i].Keyword()) &&
        forall j :: 0 <= j < i ==> ProjectAttrs[j] in p.attrs
  {
    RequireAttrsSpec("Project", p.attrs, ProjectAttrs);
  }

  /** `_section_to_dict`. */
  function SectionRecord(s: RemoteSection): Result<Record, string>
  {
    RequireAttrs("Section", s.attrs, SectionAttrs)
  }

  /**
   * A section normalizes exactly when it has id, name, order and project_id;
   * the record then holds exactly those, unchanged. Otherwise the
   * AttributeError names the first one missing.
   */
  lemma SectionRecordSpec(s: RemoteSection)
    ensures SectionRecord(s).Success? <==> forall k :: k in SectionAttrs ==> k in s.attrs
    ensures SectionRecord(s).Success? ==>
      forall k :: k in SectionRecord(s).value <==> k in SectionAttrs
    ensures SectionRecord(s).Success? ==>
      forall k :: k in SectionRecord(s).value ==> SectionRecord(s).value[k] == s.attrs[k]
    ensures SectionRecord(s).Failure? ==>
      exists i :: 0 <= i < |SectionAttrs| && SectionAttrs[i] !in s.attrs &&
        SectionRecord(s).error == AttributeErrorText("Section", SectionAttrs[i].Keyword()) &&
        forall j :: 0 <= j < i ==> SectionAttrs[j] in s.attrs
  {
    RequireAttrsSpec("Section", s.attrs, SectionAttrs);
  }

  /** `_label_to_dict`: `favorite` defaults to False when the label has no such attribute. */
  function LabelRecord(l: RemoteLabel): Result<Record, string>
  {
    match RequireAttrs("Label", l.attrs, LabelAttrs)
    case Failure(e) => Failure(e)
    case Success(d) => Success(d[Favorite := if Favorite in l.attrs then l.attrs[Favorite] else Bool(false)])
  }

  /**
   * A label normalizes exactly when it has id, name, color and order; the
   * record then holds those four unchanged and `favorite`, which is the
   * label's own when it has one and False otherwise.
   */
  lemma LabelRecordSpec(l: RemoteLabel)
    ensures LabelRecord(l).Success? <==> forall k :: k in LabelAttrs ==> k in l.attrs
    ensures LabelRecord(l).Success? ==> LabelRecord(l).value.Keys == {Id, Name, Color, Order, Favorite}
    ensures LabelRecord(l).Success? ==> forall k :: k in LabelAttrs ==> LabelRecord(l).value[k] == l.attrs[k]
    ensures LabelRecord(l).Success? ==>
      LabelRecord(l).value[Favorite] == if Favorite in l.attrs then l.attrs[Favorite] else Bool(false)
    ensures LabelRecord(l).Failure? ==>
      exists i :: 0 <= i < |LabelAttrs| && LabelAttrs[i] !in l.attrs &&
        LabelRecord(l).error == AttributeErrorText("Label", LabelAttrs[i].Keyword()) &&
        forall j :: 0 <= j < i ==> LabelAttrs[j] in l.attrs
  {
    RequireAttrsSpec("Label", l.attrs, LabelAttrs);
    if LabelRecord(l).Success? {
      var d := RequireAttrs("Label", l.attrs, LabelAttrs).value;
      assert d.Keys == {Id, Name, Color, Order};
    }
  }

  /** A probed comment target: present and truthy. */
  predicate HasTarget(attrs: map<Key, Value>, k: Key)
  {
    k in attrs && Truthy(attrs[k])
  }

  /** What `_comment_to_dict` returns for a comment. */
  function CommentRecord(c: RemoteComment): Result<Record, string>
  {
    match RequireAttrs("Comment", c.attrs, CommentAttrs)
    case Failure(e) => Failure(e)
    case Success(d) =>
      var withTask := if HasTarget(c.attrs, TaskId) then d[TaskId := c.attrs[TaskId]] else d;
      Success(if HasTarget(c.attrs, ProjectId) then withTask[ProjectId := c.attrs[ProjectId]] else withTask)
  }

  /**
   * A comment normalizes exactly when it has id, content and posted_at; the
   * record always holds those, and a target only when the comment has it and
   * it is truthy.
   */
  lemma CommentRecordKeys(c: RemoteComment)
    ensures CommentRecord(c).Success? <==> forall k :: k in CommentAttrs ==> k in c.attrs
    ensures CommentRecord(c).Success? ==>
      CommentRecord(c).value.Keys == {Id, Content, PostedAt}
        + (if HasTarget(c.attrs, TaskId) then {TaskId} else {})
        + (if HasTarget(c.attrs, ProjectId) then {ProjectId} else {})
    ensures CommentRecord(c).Failure? ==>
      exists i :: 0 <= i < |CommentAttrs| && CommentAttrs[i] !in c.attrs &&
        CommentRecord(c).error == AttributeErrorText("Comment", CommentAttrs[i].Keyword()) &&
        forall j :: 0 <= j < i ==> CommentAttrs[j] in c.attrs
  {
    RequireAttrsSpec("Comment", c.attrs, CommentAttrs);
    if CommentRecord(c).Success? {
      assert RequireAttrs("Comment", c.attrs, CommentAttrs).value.Keys == {Id, Content, PostedAt};
    }
  }

  /** Every value of a normalized comment is the comment's own attribute. */
  lemma CommentRecordValues(c: RemoteComment)
    requires CommentRecord(c).Success?
    ensures forall k :: k in CommentRecord(c).value ==> k in c.attrs && CommentRecord(c).value[k] == c.attrs[k]
  {
    RequireAttrsSpec("Comment", c.attrs, CommentAttrs);
    var d := RequireAttrs("Comment", c.attrs, CommentAttrs).value;
    var withTask := if HasTarget(c.attrs, TaskId) then d[TaskId := c.attrs[TaskId]] else d;
    assert forall k :: k in withTask ==> k in c.attrs && withTask[k] == c.attrs[k];
  }

  /** `_comment_to_dict`, in the source's statement form. */
  method CommentToDict(c: RemoteComment) returns (r: Result<Record, string>)
    ensures r == CommentRecord(c)
  {
    var base := RequireAttrs("Comment", c.attrs, CommentAttrs);
    if base.Failure? {
      return Failure(base.error);
    }
    var d := base.value;
    if TaskId in c.attrs && Truthy(c.attrs[TaskId]) {
      d := d[TaskId := c.attrs[TaskId]];
    }
    if ProjectId in c.attrs && Truthy(c.attrs[ProjectId]) {
      d := d[ProjectId := c.attrs[ProjectId]];
    }
    r := Success(d);
  }
}
