/**
 * Python values as the adaptation layer sees them: the scalars, lists and
 * dicts that flow from remote objects into the records it returns, together
 * with the three pieces of Python semantics the layer depends on: truthiness,
 * `str()` of a value, and indexing a dict.
 */
module Values {
  import opened Wrappers

  /**
   * The names the layer uses as dict keys, keyword arguments and attribute
   * names; `Keyword` spells each one as the source does.
   */
  datatype Key =
    | Content | Description | DueString | DueDate | DueDatetime | DueLang | Priority | Id
    | Name | TaskId | ProjectId | SectionId | Labels | ParentId | AssigneeId | DayOrder | Color
    | IsFavorite | ViewStyle | Order | Favorite | Label | Url | CreatedAt | Due | LabelIds
    | IsInboxProject | PostedAt | Date | DueText | IsRecurring | Datetime | Timezone
  {
    function Keyword(): string
    {
      match this
      case Content => "content"
      case Description => "description"
      case DueString => "due_string"
      case DueDate => "due_date"
      case DueDatetime => "due_datetime"
      case DueLang => "due_lang"
      case Priority => "priority"
      case Id => "id"
      case Name => "name"
      case TaskId => "task_id"
      case ProjectId => "project_id"
      case SectionId => "section_id"
      case Labels => "labels"
      case ParentId => "parent_id"
      case AssigneeId => "assignee_id"
      case DayOrder => "day_order"
      case Color => "color"
      case IsFavorite => "is_favorite"
      case ViewStyle => "view_style"
      case Order => "order"
      case Favorite => "favorite"
      case Label => "label"
      case Url => "url"
      case CreatedAt => "created_at"
      case Due => "due"
      case LabelIds => "label_ids"
      case IsInboxProject => "is_inbox_project"
      case PostedAt => "posted_at"
      case Date => "date"
      case DueText => "string"  // a due date's `string`
      case IsRecurring => "is_recurring"
      case Datetime => "datetime"
      case Timezone => "timezone"
    }
  }

  /** A Python object: None, a bool, an int, a str, a list or a dict keyed by names. */
  datatype Value =
    | Null
    | Bool(b: bool)
    | Int(i: int)
    | Str(s: string)
    | List(items: seq<Value>)
    | Dict(entries: map<Key, Value>)

  /** A plain dict keyed by names: a normalized record. */
  type Record = map<Key, Value>

  /** Python's `bool(v)`: None, False, 0 and empty containers are falsy. */
  predicate Truthy(v: Value)
  {
    match v
    case Null => false
    case Bool(b) => b
    case Int(i) => i != 0
    case Str(s) => s != ""
    case List(items) => items != []
    case Dict(entries) => entries != map[]
  }

  /** The name Python gives the type of a value, as it appears in error messages. */
  function TypeName(v: Value): string
  {
    match v
    case Null => "NoneType"
    case Bool(_) => "bool"
    case Int(_) => "int"
    case Str(_) => "str"
    case List(_) => "list"
    case Dict(_) => "dict"
  }

  /** The message of the AttributeError raised when `obj.attr` is read and missing. */
  function AttributeErrorText(typeName: string, attr: string): string
  {
    "'" + typeName + "' object has no attribute '" + attr + "'"
  }

  /** The message of the KeyError raised when `d[key]` is read and missing. */
  function KeyErrorText(key: Key): string
  {
    "'" + key.Keyword() + "'"
  }

  /** Python's `d[key]`: the entry, or a KeyError. */
  function Lookup(d: Record, key: Key): (r: Result<Value, string>)
    ensures r.Success? <==> key in d
    ensures r.Success? ==> r.value == d[key]
    ensures r.Failure? ==> r.error == KeyErrorText(key)
  {
    if key in d then Success(d[key]) else Failure(KeyErrorText(key))
  }

  /** The character of one decimal digit. */
  function DigitChar(d: nat): (c: char)
    requires d < 10
    ensures '0' <= c <= '9' && c as int - '0' as int == d
  {
    ('0' as int + d) as char
  }

  /** The number a string of decimal digits denotes, most significant first. */
  function DigitsValue(s: string): nat
    requires forall k :: 0 <= k < |s| ==> '0' <= s[k] <= '9'
  {
    if s == [] then 0 else 10 * DigitsValue(s[..|s| - 1]) + (s[|s| - 1] as int - '0' as int)
  }

  /** The decimal digits of a natural number, most significant first, without leading zeros. */
  function Decimal(n: nat): (s: string)
    ensures |s| >= 1
    ensures forall k :: 0 <= k < |s| ==> '0' <= s[k] <= '9'
    ensures DigitsValue(s) == n
    ensures (s[0] == '0') <==> n == 0
  {
    if n < 10 then [DigitChar(n)]
    else
      var s := Decimal(n / 10) + [DigitChar(n % 10)];
      assert s[..|s| - 1] == Decimal(n / 10);
      s
  }

  /**
   * Python's `str(v)` (what an f-string writes for `{v}`). Scalars are
   * rendered exactly; a list or a dict is rendered by Python's `repr`, which
   * the model takes as the given function `repr`.
   */
  function Text(v: Value, repr: Value -> string): string
  {
    match v
    case Null => "None"
    case Bool(b) => if b then "True" else "False"
    case Int(i) => if i < 0 then "-" + Decimal(-i) else Decimal(i)
    case Str(s) => s
    case List(_) => repr(v)
    case Dict(_) => repr(v)
  }

  /** The record list `[d1, d2, ...]` as a single value, the argument `json.dumps` receives. */
  function RecordList(recs: seq<Record>): (v: Value)
    ensures v.List? && |v.items| == |recs|
    ensures forall i :: 0 <= i < |recs| ==> v.items[i] == Dict(recs[i])
  {
    List(seq(|recs|, i requires 0 <= i < |recs| => Dict(recs[i])))
  }
}
