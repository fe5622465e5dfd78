/**
 * The record `get_tasks_resource` builds for each task before rendering it.
 * Unlike `_task_to_dict`, it reads the nine task attributes directly, so a
 * task lacking one raises AttributeError.
 */
module TaskResources {
  import opened Wrappers
  import opened Values
  import opened Remote
  import opened Normalize

  /**
   * The record `get_tasks_resource` builds for a task: the nine attributes
   * read directly, then `labels` if present, else `label_ids` if present,
   * then `due` read directly (None when the task has no due date).
   */
  function TaskResourceRecord(t: RemoteTask): (r: Result<Record, string>)
  {
    match RequireAttrs("Task", t.attrs, TaskAttrs)
    case Failure(e) => Failure(e)
    case Success(d) =>
      if t.due.None? then Failure(AttributeErrorText("Task", "due"))
      else Success(WithLabelsAndDue(d, t))
  }

  /** A task becomes a record exactly when it has the nine attributes and `due`. */
  lemma TaskResourceRecordSucceeds(t: RemoteTask)
    ensures TaskResourceRecord(t).Success? <==> (forall k :: k in TaskAttrs ==> k in t.attrs) && t.due.Some?
    ensures (forall k :: k in TaskAttrs ==> k in t.attrs) && t.due.None? ==>
      TaskResourceRecord(t) == Failure(AttributeErrorText("Task", "due"))
  {
    RequireAttrsSpec("Task", t.attrs, TaskAttrs);
  }

  /**
   * A built record holds exactly the nine attributes, `due`, and whichever of
   * `labels` and `label_ids` the branch copied; no other key.
   */
  lemma TaskResourceRecordKeys(t: RemoteTask)
    requires TaskResourceRecord(t).Success?
    ensures forall k :: k in TaskResourceRecord(t).value <==>
      k in TaskAttrs || k == Due ||
      (k == Labels && Labels in t.attrs) ||
      (k == LabelIds && Labels !in t.attrs && LabelIds in t.attrs)
  {
    RequireAttrsSpec("Task", t.attrs, TaskAttrs);
  }

  /** `labels` wins over `label_ids`; a task with neither gets neither key. */
  lemma TaskResourceRecordLabels(t: RemoteTask)
    requires TaskResourceRecord(t).Success?
    ensures Labels in TaskResourceRecord(t).value <==> Labels in t.attrs
    ensures LabelIds in TaskResourceRecord(t).value <==> Labels !in t.attrs && LabelIds in t.attrs
    ensures Labels in t.attrs ==> TaskResourceRecord(t).value[Labels] == t.attrs[Labels]
    ensures Labels !in t.attrs && LabelIds in t.attrs ==> TaskResourceRecord(t).value[LabelIds] == t.attrs[LabelIds]
  {
    RequireAttrsSpec("Task", t.attrs, TaskAttrs);
    assert Labels !in TaskAttrs && LabelIds !in TaskAttrs;
  }

  /** The record holds the nine attributes unchanged. */
  lemma TaskResourceRecordValues(t: RemoteTask)
    requires TaskResourceRecord(t).Success?
    ensures forall k :: k in TaskAttrs ==>
      k in t.attrs && k in TaskResourceRecord(t).value && TaskResourceRecord(t).value[k] == t.attrs[k]
  {
    var d := RequireAttrs("Task", t.attrs, TaskAttrs).value;
    RequireAttrsValues("Task", t.attrs, TaskAttrs);
    var r := TaskResourceRecord(t).value;
    TaskAttrsExcludeExtras(t);
  }

  /** The `labels`/`label_ids` branch, then `due`, added to the attribute literal. */
  function WithLabelsAndDue(d: Record, t: RemoteTask): Record
  {
    var withLabels :=
      if Labels in t.attrs then d[Labels := t.attrs[Labels]]
      else if LabelIds in t.attrs then d[LabelIds := t.attrs[LabelIds]]
      else d;
    withLabels[Due := DueEntry(t.due)]
  }

  /** The keys added after the attribute literal are not among the nine it reads, so they overwrite none of them. */
  lemma TaskAttrsExcludeExtras(t: RemoteTask)
    ensures forall k :: k in TaskAttrs ==> k != Labels && k != LabelIds && k != Due
  {
  }

  /**
   * The record's `due` is None exactly when the task's due is, and a due
   * object becomes the dict of its present sub-fields; the record has what
   * the table needs.
   */
  lemma TaskResourceRecordDue(t: RemoteTask)
    requires TaskResourceRecord(t).Success?
    ensures Due in TaskResourceRecord(t).value && TaskResourceRecord(t).value[Due] == DueEntry(t.due)
    ensures TaskResourceRecord(t).value[Due] == Null <==> t.due.value.NullDue?
    ensures Id in TaskResourceRecord(t).value && Content in TaskResourceRecord(t).value
    ensures Priority in TaskResourceRecord(t).value
  {
    RequireAttrsSpec("Task", t.attrs, TaskAttrs);
    assert Id in TaskAttrs && Content in TaskAttrs && Priority in TaskAttrs;
  }

  /** The body of the task loop, with its `if`/`elif` and the due sub-loop. */
  method TaskToResourceDict(t: RemoteTask) returns (r: Result<Record, string>)
    ensures r == TaskResourceRecord(t)
  {
    var d := RequireAttrs("Task", t.attrs, TaskAttrs);
    if d.Failure? {
      return Failure(d.error);
    }
    var taskDict := d.value;
    if Labels in t.attrs {
      taskDict := taskDict[Labels := t.attrs[Labels]];
    } else if LabelIds in t.attrs {
      taskDict := taskDict[LabelIds := t.attrs[LabelIds]];
    }
    if t.due.None? {
      return Failure(AttributeErrorText("Task", "due"));
    }
    var due := DueToDict(t.due);
    taskDict := taskDict[Due := due];
    r := Success(taskDict);
  }
}
