/**
 * The remote API's resources as the adaptation layer receives them. The layer
 * probes them with `hasattr`/`getattr`, so an object is modelled by the
 * attributes it has: `a in attrs` is `hasattr(obj, a)` and `attrs[a]` is what
 * reading it yields (which may itself be Python's None, `Null`). Reading an
 * attribute the object lacks raises AttributeError.
 */
module Remote {
  import opened Wrappers
  import opened Values

  /** What a task's `due` attribute holds: None, or a due-date object (always truthy) with its attributes. */
  datatype DueValue = NullDue | DueObject(attrs: map<Key, Value>)

  /** A task; its `due` attribute, when it has one, holds an object rather than a plain value. */
  datatype RemoteTask = RemoteTask(attrs: map<Key, Value>, due: Option<DueValue>)

  datatype RemoteProject = RemoteProject(attrs: map<Key, Value>)

  datatype RemoteSection = RemoteSection(attrs: map<Key, Value>)

  /** A label; SDK versions differ in whether it carries `favorite` or `is_favorite`. */
  datatype RemoteLabel = RemoteLabel(attrs: map<Key, Value>)

  datatype RemoteComment = RemoteComment(attrs: map<Key, Value>)

  /**
   * `d = {}; for a in names: if hasattr(obj, a): d[a] = getattr(obj, a)`:
   * exactly the listed attributes the object has, each with its value.
   */
  function CopyPresent(attrs: map<Key, Value>, names: seq<Key>): (d: Record)
    ensures forall k :: k in d <==> k in names && k in attrs
    ensures forall k :: k in d ==> d[k] == attrs[k]
  {
    if names == [] then map[]
    else
      var n := |names| - 1;
      var d := CopyPresent(attrs, names[..n]);
      assert forall k :: k in names <==> k in names[..n] || k == names[n];
      if names[n] in attrs then d[names[n] := attrs[names[n]]] else d
  }

  /** The loop form of CopyPresent, as the source writes it. */
  method CopyAttrs(attrs: map<Key, Value>, names: seq<Key>) returns (d: Record)
    ensures d == CopyPresent(attrs, names)
  {
    d := map[];
    for i := 0 to |names|
      invariant d == CopyPresent(attrs, names[..i])
    {
      assert names[..i + 1][..i] == names[..i];
      if names[i] in attrs {
        d := d[names[i] := attrs[names[i]]];
      }
    }
    assert names[..|names|] == names;
  }

  /**
   * The dict literal `{a: obj.a for a in names}` read attribute by attribute
   * in order: the first missing attribute raises AttributeError.
   */
  function RequireAttrs(typeName: string, attrs: map<Key, Value>, names: seq<Key>): Result<Record, string>
  {
    if names == [] then Success(map[])
    else
      var n := |names| - 1;
      match RequireAttrs(typeName, attrs, names[..n])
      case Failure(e) => Failure(e)
      case Success(d) =>
        if names[n] in attrs then Success(d[names[n] := attrs[names[n]]])
        else Failure(AttributeErrorText(typeName, names[n].Keyword()))
  }

  /**
   * The literal succeeds exactly when every listed attribute exists, and then
   * holds exactly those attributes with their values; otherwise it raises for
   * the first missing one.
   */
  lemma {:induction false} RequireAttrsSpec(typeName: string, attrs: map<Key, Value>, names: seq<Key>)
    ensures RequireAttrs(typeName, attrs, names).Success? <==> forall k :: k in names ==> k in attrs
    ensures RequireAttrs(typeName, attrs, names).Success? ==>
      forall k :: k in RequireAttrs(typeName, attrs, names).value <==> k in names
    ensures RequireAttrs(typeName, attrs, names).Success? ==>
      forall k :: k in RequireAttrs(typeName, attrs, names).value ==>
        RequireAttrs(typeName, attrs, names).value[k] == attrs[k]
    ensures RequireAttrs(typeName, attrs, names).Failure? ==>
      exists i :: 0 <= i < |names| && names[i] !in attrs &&
        RequireAttrs(typeName, attrs, names).error == AttributeErrorText(typeName, names[i].Keyword()) &&
        forall j :: 0 <= j < i ==> names[j] in attrs
  {
    if names != [] {
      var n := |names| - 1;
      RequireAttrsSpec(typeName, attrs, names[..n]);
      assert forall k :: k in names <==> k in names[..n] || k == names[n];
      assert forall j :: 0 <= j < n ==> names[..n][j] == names[j];
    }
  }

  /** A successful literal holds every listed attribute with its value. */
  lemma RequireAttrsValues(typeName: string, attrs: map<Key, Value>, names: seq<Key>)
    requires RequireAttrs(typeName, attrs, names).Success?
    ensures forall k :: k in names ==>
      k in attrs && k in RequireAttrs(typeName, attrs, names).value &&
      RequireAttrs(typeName, attrs, names).value[k] == attrs[k]
  {
    RequireAttrsSpec(typeName, attrs, names);
  }
}
