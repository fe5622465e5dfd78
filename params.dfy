/**
 * The request-parameter builders of `TodoistTools`: each operation turns its
 * keyword arguments into the key/value map handed to the remote call.
 *
 * Arguments are Python values, `Null` being None; an argument the caller
 * omits is None. The builders are not uniform: some keep an optional argument
 * whenever it `is not None` (so "" and False are still sent), others only when
 * it is truthy. A builder is described by a `Plan`, the optional keywords in
 * the order the source tests them, each with its `Guard`; `Build` is the
 * declarative meaning of a plan and `BuildSpec` says, once for every plan,
 * which keys end up in the map. Each builder method performs the source's
 * guarded inserts one by one and is proved equal to `Build` of its plan.
 */
module Params {
  import opened Wrappers
  import opened Values

  /**
   * Every builder tests its optional keywords in increasing `Rank`, all above
   * the rank of its mandatory keys; names that are never keyword arguments
   * rank after all the others.
   */
  function Rank(k: Key): nat
  {
    match k
    case Content => 0
    case Description => 1
    case DueString => 2
    case DueDate => 3
    case DueDatetime => 4
    case DueLang => 5
    case Priority => 6
    case Id => 7
    case Name => 8
    case TaskId => 9
    case ProjectId => 10
    case SectionId => 11
    case Labels => 12
    case ParentId => 13
    case AssigneeId => 14
    case DayOrder => 15
    case Color => 16
    case IsFavorite => 17
    case ViewStyle => 18
    case Order => 19
    case Favorite => 20
    case Label => 21
    case _ => 22
  }

  /** A parameter map as passed to the remote call (`**kwargs`). */
  type Kwargs = map<Key, Value>

  /** The optional keyword arguments of a tool call; an omitted one is None. */
  type Args = map<Key, Value>

  function ArgOf(args: Args, p: Key): Value
  {
    if p in args then args[p] else Null
  }

  /** How a builder decides whether an optional argument is sent. */
  datatype Guard =
    | IfNotNone  // `if arg is not None:`
    | IfTruthy   // `if arg:`

  predicate Passes(g: Guard, v: Value)
  {
    match g
    case IfNotNone => v != Null
    case IfTruthy => Truthy(v)
  }

  /** One guarded insert: `if <guard>: data[key] = v`. */
  function Put(data: Kwargs, key: Key, g: Guard, v: Value): Kwargs
  {
    if Passes(g, v) then data[key := v] else data
  }

  /** The guarded insert as a statement. */
  method Step(data: Kwargs, key: Key, g: Guard, v: Value) returns (d: Kwargs)
    ensures d == Put(data, key, g, v)
  {
    d := data;
    if Passes(g, v) {
      d := d[key := v];
    }
  }

  /** The optional keywords of a builder, in the order it tests them. */
  datatype Plan = Done | Then(key: Key, guard: Guard, rest: Plan)

  /** `plan` has a step for `key`. */
  predicate Has(plan: Plan, key: Key)
  {
    match plan
    case Done => false
    case Then(k, _, rest) => k == key || Has(rest, key)
  }

  /** The keys of `plan` strictly increase in rank, all above `floor`. */
  predicate Ascending(plan: Plan, floor: int)
  {
    match plan
    case Done => true
    case Then(key, _, rest) => floor < Rank(key) && Ascending(rest, Rank(key))
  }

  /** An ascending plan's keys all rank above its floor. */
  lemma {:induction false} AscendingAbove(plan: Plan, floor: int, k: Key)
    requires Ascending(plan, floor) && Has(plan, k)
    ensures floor < Rank(k)
    decreases plan
  {
    match plan
    case Then(key, _, rest) =>
      if key != k {
        AscendingAbove(rest, Rank(key), k);
      }
  }

  /** `plan` tests `key` under guard `g`. */
  predicate Mentions(plan: Plan, key: Key, g: Guard)
  {
    match plan
    case Done => false
    case Then(k, h, rest) => (k == key && h == g) || Mentions(rest, key, g)
  }

  /** Every step of `plan` uses guard `g`. */
  predicate Uniform(plan: Plan, g: Guard)
  {
    match plan
    case Done => true
    case Then(_, h, rest) => h == g && Uniform(rest, g)
  }

  /** The map a builder produces: the mandatory entries `data`, then each step of `plan` in turn. */
  function Build(data: Kwargs, args: Args, plan: Plan): Kwargs
    decreases plan
  {
    match plan
    case Done => data
    case Then(key, g, rest) => Build(Put(data, key, g, ArgOf(args, key)), args, rest)
  }

  /** `key` is in `r` exactly when `v` passes `g`, and then maps to `v` unchanged. */
  predicate SentAs(r: Kwargs, key: Key, g: Guard, v: Value)
  {
    (key in r <==> Passes(g, v)) && (key in r ==> r[key] == v)
  }

  /**
   * The meaning of a plan whose keys are distinct and disjoint from the
   * mandatory ones: the mandatory entries stay as they are, each planned key
   * is sent exactly when its argument passes its guard, and nothing else is
   * added.
   */
  lemma {:induction false} BuildSpec(data: Kwargs, args: Args, plan: Plan, floor: int)
    requires Ascending(plan, floor) && forall k :: k in data ==> Rank(k) <= floor
    ensures forall k :: k in Build(data, args, plan) ==> k in data || Has(plan, k)
    ensures forall k :: k in data ==> k in Build(data, args, plan) && Build(data, args, plan)[k] == data[k]
    ensures forall k, g :: Mentions(plan, k, g) ==> SentAs(Build(data, args, plan), k, g, ArgOf(args, k))
    ensures forall k, g :: Uniform(plan, g) && Has(plan, k) ==> SentAs(Build(data, args, plan), k, g, ArgOf(args, k))
    decreases plan
  {
    match plan
    case Done =>
    case Then(key, g, rest) =>
      forall k | Has(rest, k)
        ensures Rank(key) < Rank(k)
      {
        AscendingAbove(rest, Rank(key), k);
      }
      BuildSpec(Put(data, key, g, ArgOf(args, key)), args, rest, Rank(key));
  }

  // ---------------------------------------------------------------- create_task

  /** `create_task`'s optional keywords, all tested with `is not None`. */
  const CreateTaskPlan: Plan :=
    Then(Description, IfNotNone, Then(DueString, IfNotNone, Then(DueDate, IfNotNone,
    Then(DueDatetime, IfNotNone, Then(DueLang, IfNotNone, Then(Priority, IfNotNone,
    Then(ProjectId, IfNotNone, Then(SectionId, IfNotNone, Then(Labels, IfNotNone,
    Then(ParentId, IfNotNone, Then(AssigneeId, IfNotNone, Then(DayOrder, IfNotNone, Done))))))))))))

  /** `task_data` of `create_task`. */
  function CreateTaskParams(content: Value, args: Args): Kwargs
  {
    Build(map[Content := content], args, CreateTaskPlan)
  }

  lemma CreateTaskPlanOrdered()
    ensures Ascending(CreateTaskPlan, Rank(Content))
  {
  }

  lemma CreateTaskPlanUniform()
    ensures Uniform(CreateTaskPlan, IfNotNone)
  {
  }

  /** `content` is always sent; every other key is an optional argument that is not None, unchanged. */
  lemma CreateTaskParamsSpec(content: Value, args: Args)
    ensures Content in CreateTaskParams(content, args) && CreateTaskParams(content, args)[Content] == content
    ensures forall k :: Has(CreateTaskPlan, k) ==>
      SentAs(CreateTaskParams(content, args), k, IfNotNone, ArgOf(args, k))
    ensures forall k :: k in CreateTaskParams(content, args) ==> k == Content || Has(CreateTaskPlan, k)
  {
    CreateTaskPlanOrdered();
    CreateTaskPlanUniform();
    BuildSpec(map[Content := content], args, CreateTaskPlan, Rank(Content));
  }

  /** Creating "Buy milk" due "tomorrow" at priority 2 sends exactly those three keys. */
  lemma CreateTaskExample()
    ensures CreateTaskParams(Str("Buy milk"), map[DueString := Str("tomorrow"), Priority := Int(2)]) ==
      map[Content := Str("Buy milk"), DueString := Str("tomorrow"), Priority := Int(2)]
  {
  }

  /** `create_task`'s `task_data`, insert by insert. */
  method BuildCreateTask(content: Value, args: Args) returns (data: Kwargs)
    ensures data == CreateTaskParams(content, args)
  {
    data := map[Content := content];
    ghost var rest := CreateTaskPlan;
    data := Step(data, Description, IfNotNone, ArgOf(args, Description));
    rest := rest.rest;
    assert Build(data, args, rest) == CreateTaskParams(content, args);
    data := Step(data, DueString, IfNotNone, ArgOf(args, DueString));
    rest := rest.rest;
    assert Build(data, args, rest) == CreateTaskParams(content, args);
    data := Step(data, DueDate, IfNotNone, ArgOf(args, DueDate));
    rest := rest.rest;
    assert Build(data, args, rest) == CreateTaskParams(content, args);
    data := Step(data, DueDatetime, IfNotNone, ArgOf(args, DueDatetime));
    rest := rest.rest;
    assert Build(data, args, rest) == CreateTaskParams(content, args);
    data := Step(data, DueLang, IfNotNone, ArgOf(args, DueLang));
    rest := rest.rest;
    assert Build(data, args, rest) == CreateTaskParams(content, args);
    data := Step(data, Priority, IfNotNone, ArgOf(args, Priority));
    rest := rest.rest;
    assert Build(data, args, rest) == CreateTaskParams(content, args);
    data := Step(data, ProjectId, IfNotNone, ArgOf(args, ProjectId));
    rest := rest.rest;
    assert Build(data, args, rest) == CreateTaskParams(content, args);
    data := Step(data, SectionId, IfNotNone, ArgOf(args, SectionId));
    rest := rest.rest;
    assert Build(data, args, rest) == CreateTaskParams(content, args);
    data := Step(data, Labels, IfNotNone, ArgOf(args, Labels));
    rest := rest.rest;
    assert Build(data, args, rest) == CreateTaskParams(content, args);
    data := Step(data, ParentId, IfNotNone, ArgOf(args, ParentId));
    rest := rest.rest;
    assert Build(data, args, rest) == CreateTaskParams(content, args);
    data := Step(data, AssigneeId, IfNotNone, ArgOf(args, AssigneeId));
    rest := rest.rest;
    assert Build(data, args, rest) == CreateTaskParams(content, args);
    data := Step(data, DayOrder, IfNotNone, ArgOf(args, DayOrder));
  }

  // ---------------------------------------------------------------- update_task

  /** `update_task`'s keywords, all optional and all tested with `is not None`; the task id is passed apart. */
  const UpdateTaskPlan: Plan :=
    Then(Content, IfNotNone, Then(Description, IfNotNone, Then(DueString, IfNotNone,
    Then(DueDate, IfNotNone, Then(DueDatetime, IfNotNone, Then(DueLang, IfNotNone,
    Then(Priority, IfNotNone, Then(Labels, IfNotNone, Then(AssigneeId, IfNotNone,
    Then(DayOrder, IfNotNone, Done))))))))))

  /** `update_data` of `update_task`. */
  function UpdateTaskParams(args: Args): Kwargs
  {
    Build(map[], args, UpdateTaskPlan)
  }

  lemma UpdateTaskPlanOrdered()
    ensures Ascending(UpdateTaskPlan, -1)
  {
  }

  lemma UpdateTaskPlanUniform()
    ensures Uniform(UpdateTaskPlan, IfNotNone)
  {
  }

  /**
   * The map holds exactly the supplied arguments (an empty string or False
   * counts as supplied), and it is empty exactly when none was supplied.
   */
  lemma UpdateTaskParamsSpec(args: Args)
    ensures forall k :: Has(UpdateTaskPlan, k) ==> SentAs(UpdateTaskParams(args), k, IfNotNone, ArgOf(args, k))
    ensures forall k :: k in UpdateTaskParams(args) ==> Has(UpdateTaskPlan, k)
    ensures |UpdateTaskParams(args)| == 0 <==> forall k :: Has(UpdateTaskPlan, k) ==> ArgOf(args, k) == Null
  {
    UpdateTaskPlanOrdered();
    UpdateTaskPlanUniform();
    BuildSpec(map[], args, UpdateTaskPlan, -1);
    var r := UpdateTaskParams(args);
    if |r| == 0 {
      assert forall k :: k !in r;
    } else {
      var k :| k in r;
      assert Has(UpdateTaskPlan, k) && ArgOf(args, k) != Null;
    }
  }

  /** `update_task`'s `update_data`, insert by insert. */
  method BuildUpdateTask(args: Args) returns (data: Kwargs)
    ensures data == UpdateTaskParams(args)
  {
    data := map[];
    ghost var rest := UpdateTaskPlan;
    data := Step(data, Content, IfNotNone, ArgOf(args, Content));
    rest := rest.rest;
    assert Build(data, args, rest) == UpdateTaskParams(args);
    data := Step(data, Description, IfNotNone, ArgOf(args, Description));
    rest := rest.rest;
    assert Build(data, args, rest) == UpdateTaskParams(args);
    data := Step(data, DueString, IfNotNone, ArgOf(args, DueString));
    rest := rest.rest;
    assert Build(data, args, rest) == UpdateTaskParams(args);
    data := Step(data, DueDate, IfNotNone, ArgOf(args, DueDate));
    rest := rest.rest;
    assert Build(data, args, rest) == UpdateTaskParams(args);
    data := Step(data, DueDatetime, IfNotNone, ArgOf(args, DueDatetime));
    rest := rest.rest;
    assert Build(data, args, rest) == UpdateTaskParams(args);
    data := Step(data, DueLang, IfNotNone, ArgOf(args, DueLang));
    rest := rest.rest;
    assert Build(data, args, rest) == UpdateTaskParams(args);
    data := Step(data, Priority, IfNotNone, ArgOf(args, Priority));
    rest := rest.rest;
    assert Build(data, args, rest) == UpdateTaskParams(args);
    data := Step(data, Labels, IfNotNone, ArgOf(args, Labels));
    rest := rest.rest;
    assert Build(data, args, rest) == UpdateTaskParams(args);
    data := Step(data, AssigneeId, IfNotNone, ArgOf(args, AssigneeId));
    rest := rest.rest;
    assert Build(data, args, rest) == UpdateTaskParams(args);
    data := Step(data, DayOrder, IfNotNone, ArgOf(args, DayOrder));
  }

  // ---------------------------------------------------------------- add_project

  /** `add_project`'s optional keywords: `is_favorite` is tested with `is not None`, the others for truthiness. */
  const AddProjectPlan: Plan :=
    Then(ParentId, IfTruthy, Then(Color, IfTruthy, Then(IsFavorite, IfNotNone,
    Then(ViewStyle, IfTruthy, Done))))

  /** `project_data` of `add_project`. */
  function AddProjectParams(name: Value, args: Args): Kwargs
  {
    Build(map[Name := name], args, AddProjectPlan)
  }

  /** `name` is always sent; `parent_id`, `color` and `view_style` only when truthy, `is_favorite` whenever it is not None. */
  lemma AddProjectParamsSpec(name: Value, args: Args)
    ensures Name in AddProjectParams(name, args) && AddProjectParams(name, args)[Name] == name
    ensures SentAs(AddProjectParams(name, args), ParentId, IfTruthy, ArgOf(args, ParentId))
    ensures SentAs(AddProjectParams(name, args), Color, IfTruthy, ArgOf(args, Color))
    ensures SentAs(AddProjectParams(name, args), IsFavorite, IfNotNone, ArgOf(args, IsFavorite))
    ensures SentAs(AddProjectParams(name, args), ViewStyle, IfTruthy, ArgOf(args, ViewStyle))
    ensures forall k :: k in AddProjectParams(name, args) ==> k == Name || Has(AddProjectPlan, k)
  {
    assert Ascending(AddProjectPlan, Rank(Name));
    assert Mentions(AddProjectPlan, ParentId, IfTruthy);
    assert Mentions(AddProjectPlan, Color, IfTruthy);
    assert Mentions(AddProjectPlan, IsFavorite, IfNotNone);
    assert Mentions(AddProjectPlan, ViewStyle, IfTruthy);
    BuildSpec(map[Name := name], args, AddProjectPlan, Rank(Name));
  }

  /** `add_project`'s `project_data`, insert by insert. */
  method BuildAddProject(name: Value, args: Args) returns (data: Kwargs)
    ensures data == AddProjectParams(name, args)
  {
    data := map[Name := name];
    ghost var rest := AddProjectPlan;
    data := Step(data, ParentId, IfTruthy, ArgOf(args, ParentId));
    rest := rest.rest;
    assert Build(data, args, rest) == AddProjectParams(name, args);
    data := Step(data, Color, IfTruthy, ArgOf(args, Color));
    rest := rest.rest;
    assert Build(data, args, rest) == AddProjectParams(name, args);
    data := Step(data, IsFavorite, IfNotNone, ArgOf(args, IsFavorite));
    rest := rest.rest;
    assert Build(data, args, rest) == AddProjectParams(name, args);
    data := Step(data, ViewStyle, IfTruthy, ArgOf(args, ViewStyle));
  }

  // ---------------------------------------------------------------- update_project

  /** `update_project`'s optional keywords: `is_favorite` is tested with `is not None`, the others for truthiness. */
  const UpdateProjectPlan: Plan :=
    Then(Name, IfTruthy, Then(Color, IfTruthy, Then(IsFavorite, IfNotNone,
    Then(ViewStyle, IfTruthy, Done))))

  /** `update_data` of `update_project`, which starts from the project id. */
  function UpdateProjectParams(projectId: Value, args: Args): Kwargs
  {
    Build(map[Id := projectId], args, UpdateProjectPlan)
  }

  /** `id` is always sent, the optional keywords under their guards; the map holds `id` alone exactly when no guard passes. */
  lemma UpdateProjectParamsSpec(projectId: Value, args: Args)
    ensures Id in UpdateProjectParams(projectId, args) && UpdateProjectParams(projectId, args)[Id] == projectId
    ensures SentAs(UpdateProjectParams(projectId, args), Name, IfTruthy, ArgOf(args, Name))
    ensures SentAs(UpdateProjectParams(projectId, args), Color, IfTruthy, ArgOf(args, Color))
    ensures SentAs(UpdateProjectParams(projectId, args), IsFavorite, IfNotNone, ArgOf(args, IsFavorite))
    ensures SentAs(UpdateProjectParams(projectId, args), ViewStyle, IfTruthy, ArgOf(args, ViewStyle))
    ensures forall k :: k in UpdateProjectParams(projectId, args) ==> k == Id || Has(UpdateProjectPlan, k)
    ensures UpdateProjectParams(projectId, args).Keys == {Id} <==> !Truthy(ArgOf(args, Name)) && !Truthy(ArgOf(args, Color)) && ArgOf(args, IsFavorite) == Null && !Truthy(ArgOf(args, ViewStyle))
  {
    assert Ascending(UpdateProjectPlan, Rank(Id));
    assert Mentions(UpdateProjectPlan, Name, IfTruthy);
    assert Mentions(UpdateProjectPlan, Color, IfTruthy);
    assert Mentions(UpdateProjectPlan, IsFavorite, IfNotNone);
    assert Mentions(UpdateProjectPlan, ViewStyle, IfTruthy);
    BuildSpec(map[Id := projectId], args, UpdateProjectPlan, Rank(Id));
  }

  /** `update_project`'s `update_data`, insert by insert. */
  method BuildUpdateProject(projectId: Value, args: Args) returns (data: Kwargs)
    ensures data == UpdateProjectParams(projectId, args)
  {
    data := map[Id := projectId];
    ghost var rest := UpdateProjectPlan;
    data := Step(data, Name, IfTruthy, ArgOf(args, Name));
    rest := rest.rest;
    assert Build(data, args, rest) == UpdateProjectParams(projectId, args);
    data := Step(data, Color, IfTruthy, ArgOf(args, Color));
    rest := rest.rest;
    assert Build(data, args, rest) == UpdateProjectParams(projectId, args);
    data := Step(data, IsFavorite, IfNotNone, ArgOf(args, IsFavorite));
    rest := rest.rest;
    assert Build(data, args, rest) == UpdateProjectParams(projectId, args);
    data := Step(data, ViewStyle, IfTruthy, ArgOf(args, ViewStyle));
  }

  // ---------------------------------------------------------------- add_section

  /** `add_section`'s one optional keyword. */
  const AddSectionPlan: Plan :=
    Then(Order, IfNotNone, Done)

  /** `section_data` of `add_section`. */
  function AddSectionParams(name: Value, projectId: Value, args: Args): Kwargs
  {
    Build(map[Name := name, ProjectId := projectId], args, AddSectionPlan)
  }

  /** `name` and `project_id` are always sent; `order` whenever it is not None, so an order of 0 is sent. */
  lemma AddSectionParamsSpec(name: Value, projectId: Value, args: Args)
    ensures Name in AddSectionParams(name, projectId, args) && AddSectionParams(name, projectId, args)[Name] == name
    ensures ProjectId in AddSectionParams(name, projectId, args) && AddSectionParams(name, projectId, args)[ProjectId] == projectId
    ensures SentAs(AddSectionParams(name, projectId, args), Order, IfNotNone, ArgOf(args, Order))
    ensures forall k :: k in AddSectionParams(name, projectId, args) ==> k == Name || k == ProjectId || Has(AddSectionPlan, k)
  {
    assert Ascending(AddSectionPlan, Rank(ProjectId));
    assert Mentions(AddSectionPlan, Order, IfNotNone);
    BuildSpec(map[Name := name, ProjectId := projectId], args, AddSectionPlan, Rank(ProjectId));
  }

  /** `add_section`'s `section_data`. */
  method BuildAddSection(name: Value, projectId: Value, args: Args) returns (data: Kwargs)
    ensures data == AddSectionParams(name, projectId, args)
  {
    data := map[Name := name, ProjectId := projectId];
    data := Step(data, Order, IfNotNone, ArgOf(args, Order));
  }

  // ---------------------------------------------------------------- add_label

  /** `add_label`'s optional keywords. */
  const AddLabelPlan: Plan :=
    Then(Color, IfTruthy, Then(Favorite, IfNotNone, Done))

  /** `label_data` of `add_label`. */
  function AddLabelParams(name: Value, args: Args): Kwargs
  {
    Build(map[Name := name], args, AddLabelPlan)
  }

  /** `name` is always sent; `color` only when truthy, `favorite` whenever it is not None, False included. */
  lemma AddLabelParamsSpec(name: Value, args: Args)
    ensures Name in AddLabelParams(name, args) && AddLabelParams(name, args)[Name] == name
    ensures SentAs(AddLabelParams(name, args), Color, IfTruthy, ArgOf(args, Color))
    ensures SentAs(AddLabelParams(name, args), Favorite, IfNotNone, ArgOf(args, Favorite))
    ensures forall k :: k in AddLabelParams(name, args) ==> k == Name || Has(AddLabelPlan, k)
  {
    assert Ascending(AddLabelPlan, Rank(Name));
    assert Mentions(AddLabelPlan, Color, IfTruthy);
    assert Mentions(AddLabelPlan, Favorite, IfNotNone);
    BuildSpec(map[Name := name], args, AddLabelPlan, Rank(Name));
  }

  /** `add_label`'s `label_data`, insert by insert. */
  method BuildAddLabel(name: Value, args: Args) returns (data: Kwargs)
    ensures data == AddLabelParams(name, args)
  {
    data := map[Name := name];
    ghost var rest := AddLabelPlan;
    data := Step(data, Color, IfTruthy, ArgOf(args, Color));
    rest := rest.rest;
    assert Build(data, args, rest) == AddLabelParams(name, args);
    data := Step(data, Favorite, IfNotNone, ArgOf(args, Favorite));
  }

  // ---------------------------------------------------------------- update_label

  /** `update_label`'s optional keywords. */
  const UpdateLabelPlan: Plan :=
    Then(Name, IfTruthy, Then(Color, IfTruthy, Then(Favorite, IfNotNone, Done)))

  /** `update_data` of `update_label`, which starts from the label id. */
  function UpdateLabelParams(labelId: Value, args: Args): Kwargs
  {
    Build(map[Id := labelId], args, UpdateLabelPlan)
  }

  /** `id` is always sent, the optional keywords under their guards; the map holds `id` alone exactly when no guard passes. */
  lemma UpdateLabelParamsSpec(labelId: Value, args: Args)
    ensures Id in UpdateLabelParams(labelId, args) && UpdateLabelParams(labelId, args)[Id] == labelId
    ensures SentAs(UpdateLabelParams(labelId, args), Name, IfTruthy, ArgOf(args, Name))
    ensures SentAs(UpdateLabelParams(labelId, args), Color, IfTruthy, ArgOf(args, Color))
    ensures SentAs(UpdateLabelParams(labelId, args), Favorite, IfNotNone, ArgOf(args, Favorite))
    ensures forall k :: k in UpdateLabelParams(labelId, args) ==> k == Id || Has(UpdateLabelPlan, k)
    ensures UpdateLabelParams(labelId, args).Keys == {Id} <==> !Truthy(ArgOf(args, Name)) && !Truthy(ArgOf(args, Color)) && ArgOf(args, Favorite) == Null
  {
    assert Ascending(UpdateLabelPlan, Rank(Id));
    assert Mentions(UpdateLabelPlan, Name, IfTruthy);
    assert Mentions(UpdateLabelPlan, Color, IfTruthy);
    assert Mentions(UpdateLabelPlan, Favorite, IfNotNone);
    BuildSpec(map[Id := labelId], args, UpdateLabelPlan, Rank(Id));
  }

  /** `update_label`'s `update_data`, insert by insert. */
  method BuildUpdateLabel(labelId: Value, args: Args) returns (data: Kwargs)
    ensures data == UpdateLabelParams(labelId, args)
  {
    data := map[Id := labelId];
    ghost var rest := UpdateLabelPlan;
    data := Step(data, Name, IfTruthy, ArgOf(args, Name));
    rest := rest.rest;
    assert Build(data, args, rest) == UpdateLabelParams(labelId, args);
    data := Step(data, Color, IfTruthy, ArgOf(args, Color));
    rest := rest.rest;
    assert Build(data, args, rest) == UpdateLabelParams(labelId, args);
    data := Step(data, Favorite, IfNotNone, ArgOf(args, Favorite));
  }

  /** A map holding `k` has length 1 exactly when `k` is its only key (the `len(update_data) == 1` test). */
  lemma SingleKey(d: Kwargs, k: Key)
    requires k in d
    ensures |d| == 1 <==> d.Keys == {k}
  {
    assert |d| == |d.Keys|;
    if d.Keys != {k} {
      var j :| j in d.Keys && j != k;
      assert {k, j} <= d.Keys;
      assert |{k, j}| == 2;
      SubsetSize({k, j}, d.Keys);
    }
  }

  lemma SubsetSize(a: set<Key>, b: set<Key>)
    requires a <= b
    ensures |a| <= |b|
  {
    assert b == a + (b - a);
  }

  // ---------------------------------------------------------------- get_tasks

  /** `get_tasks`'s list filters, each tested for truthiness. */
  const TaskFilterPlan: Plan :=
    Then(ProjectId, IfTruthy, Then(SectionId, IfTruthy, Then(Label, IfTruthy, Done)))

  /** The listing call `get_tasks` makes. */
  datatype TaskQuery =
    | ByFilter(query: Value)    // `filter_tasks(query=filter_query)`
    | ByKwargs(kwargs: Kwargs)  // `get_tasks(**kwargs)`

  /** The keyword arguments of the listing call: the truthy filters. */
  function TaskFilter(args: Args): Kwargs
  {
    Build(map[], args, TaskFilterPlan)
  }

  function TaskQueryOf(filterQuery: Value, args: Args): TaskQuery
  {
    if Truthy(filterQuery) then ByFilter(filterQuery) else ByKwargs(TaskFilter(args))
  }

  /**
   * A truthy filter query selects the filter call and the other filters do
   * not matter; otherwise the listing call gets exactly the truthy filters.
   */
  lemma TaskQuerySpec(filterQuery: Value, args: Args, otherArgs: Args)
    ensures Truthy(filterQuery) ==>
      TaskQueryOf(filterQuery, args) == ByFilter(filterQuery) &&
      TaskQueryOf(filterQuery, args) == TaskQueryOf(filterQuery, otherArgs)
    ensures !Truthy(filterQuery) ==> TaskQueryOf(filterQuery, args).ByKwargs?
    ensures !Truthy(filterQuery) ==>
      var kw := TaskQueryOf(filterQuery, args).kwargs;
      && SentAs(kw, ProjectId, IfTruthy, ArgOf(args, ProjectId))
      && SentAs(kw, SectionId, IfTruthy, ArgOf(args, SectionId))
      && SentAs(kw, Label, IfTruthy, ArgOf(args, Label))
      && (forall k :: k in kw ==> Has(TaskFilterPlan, k))
  {
    assert Ascending(TaskFilterPlan, -1);
    assert Mentions(TaskFilterPlan, ProjectId, IfTruthy);
    assert Mentions(TaskFilterPlan, SectionId, IfTruthy);
    assert Mentions(TaskFilterPlan, Label, IfTruthy);
    BuildSpec(map[], args, TaskFilterPlan, -1);
  }

  /** Called with no arguments, `get_tasks` lists with no keyword arguments at all. */
  lemma TaskQueryNoArguments()
    ensures TaskQueryOf(Null, map[]) == ByKwargs(map[])
  {
    TaskQuerySpec(Null, map[], map[]);
    var kw := TaskQueryOf(Null, map[]).kwargs;
    assert forall k :: k !in kw;
  }

  /** The selection in `get_tasks`, with `kwargs` built insert by insert. */
  method SelectTaskQuery(filterQuery: Value, args: Args) returns (q: TaskQuery)
    ensures q == TaskQueryOf(filterQuery, args)
  {
    if Truthy(filterQuery) {
      q := ByFilter(filterQuery);
    } else {
      var kwargs := BuildTaskFilter(args);
      q := ByKwargs(kwargs);
    }
  }

  /** `kwargs = {}; if project_id: ...; if section_id: ...; if label: ...`. */
  method BuildTaskFilter(args: Args) returns (kwargs: Kwargs)
    ensures kwargs == TaskFilter(args)
  {
    kwargs := map[];
    ghost var rest := TaskFilterPlan;
    kwargs := Step(kwargs, ProjectId, IfTruthy, ArgOf(args, ProjectId));
    rest := rest.rest;
    assert Build(kwargs, args, rest) == Build(map[], args, TaskFilterPlan);
    kwargs := Step(kwargs, SectionId, IfTruthy, ArgOf(args, SectionId));
    rest := rest.rest;
    assert Build(kwargs, args, rest) == Build(map[], args, TaskFilterPlan);
    kwargs := Step(kwargs, Label, IfTruthy, ArgOf(args, Label));
  }

  // ---------------------------------------------------------------- get_sections

  /** `get_sections`'s one filter. */
  const SectionFilterPlan: Plan := Then(ProjectId, IfTruthy, Done)

  function SectionFilter(args: Args): Kwargs
  {
    Build(map[], args, SectionFilterPlan)
  }

  /** The listing call gets `project_id` exactly when it is truthy, and nothing else. */
  lemma SectionFilterSpec(args: Args)
    ensures SentAs(SectionFilter(args), ProjectId, IfTruthy, ArgOf(args, ProjectId))
    ensures forall k :: k in SectionFilter(args) ==> k == ProjectId
  {
    assert Ascending(SectionFilterPlan, -1);
    assert Mentions(SectionFilterPlan, ProjectId, IfTruthy);
    BuildSpec(map[], args, SectionFilterPlan, -1);
  }

  method BuildSectionFilter(args: Args) returns (kwargs: Kwargs)
    ensures kwargs == SectionFilter(args)
  {
    kwargs := map[];
    kwargs := Step(kwargs, ProjectId, IfTruthy, ArgOf(args, ProjectId));
  }

  // ---------------------------------------------------------------- get_comments / add_comment

  const NoTargetError: string := "Either task_id or project_id must be provided"

  /** The comment targets, each tested for truthiness. */
  const CommentTargetPlan: Plan := Then(TaskId, IfTruthy, Then(ProjectId, IfTruthy, Done))

  /** Neither target is truthy: the comment operations refuse before any remote call. */
  predicate NoTarget(args: Args)
  {
    !Truthy(ArgOf(args, TaskId)) && !Truthy(ArgOf(args, ProjectId))
  }

  /** `kwargs` of `get_comments`, or the error it raises. */
  function CommentQuery(args: Args): Result<Kwargs, string>
  {
    if NoTarget(args) then Failure(NoTargetError) else Success(Build(map[], args, CommentTargetPlan))
  }

  /** `comment_data` of `add_comment`, or the error it raises. */
  function CommentData(content: Value, args: Args): Result<Kwargs, string>
  {
    if NoTarget(args) then Failure(NoTargetError)
    else Success(Build(map[Content := content], args, CommentTargetPlan))
  }

  /**
   * Without a truthy target the query fails with the fixed message;
   * otherwise it holds exactly the truthy targets, and at least one.
   */
  lemma CommentQuerySpec(args: Args)
    ensures CommentQuery(args).Failure? <==> NoTarget(args)
    ensures CommentQuery(args).Failure? ==> CommentQuery(args).error == NoTargetError
    ensures CommentQuery(args).Success? ==>
      var kw := CommentQuery(args).value;
      && SentAs(kw, TaskId, IfTruthy, ArgOf(args, TaskId))
      && SentAs(kw, ProjectId, IfTruthy, ArgOf(args, ProjectId))
      && (forall k :: k in kw ==> k == TaskId || k == ProjectId)
      && |kw| > 0
  {
    assert Ascending(CommentTargetPlan, -1);
    assert Mentions(CommentTargetPlan, TaskId, IfTruthy);
    assert Mentions(CommentTargetPlan, ProjectId, IfTruthy);
    BuildSpec(map[], args, CommentTargetPlan, -1);
    if !NoTarget(args) {
      var kw := CommentQuery(args).value;
      assert TaskId in kw || ProjectId in kw;
    }
  }

  /** As `CommentQuerySpec`, with `content` always sent besides the targets. */
  lemma CommentDataSpec(content: Value, args: Args)
    ensures CommentData(content, args).Failure? <==> NoTarget(args)
    ensures CommentData(content, args).Failure? ==> CommentData(content, args).error == NoTargetError
    ensures CommentData(content, args).Success? ==>
      var d := CommentData(content, args).value;
      && Content in d && d[Content] == content
      && SentAs(d, TaskId, IfTruthy, ArgOf(args, TaskId))
      && SentAs(d, ProjectId, IfTruthy, ArgOf(args, ProjectId))
      && (forall k :: k in d ==> k == Content || k == TaskId || k == ProjectId)
      && (TaskId in d || ProjectId in d)
  {
    assert Ascending(CommentTargetPlan, Rank(Content));
    assert Mentions(CommentTargetPlan, TaskId, IfTruthy);
    assert Mentions(CommentTargetPlan, ProjectId, IfTruthy);
    BuildSpec(map[Content := content], args, CommentTargetPlan, Rank(Content));
  }

  /** `get_comments`' target check and `kwargs`, insert by insert. */
  method BuildCommentQuery(args: Args) returns (r: Result<Kwargs, string>)
    ensures r == CommentQuery(args)
  {
    if !Truthy(ArgOf(args, TaskId)) && !Truthy(ArgOf(args, ProjectId)) {
      return Failure(NoTargetError);
    }
    var kwargs: Kwargs := map[];
    kwargs := Step(kwargs, TaskId, IfTruthy, ArgOf(args, TaskId));
    assert Build(kwargs, args, CommentTargetPlan.rest) == Build(map[], args, CommentTargetPlan);
    kwargs := Step(kwargs, ProjectId, IfTruthy, ArgOf(args, ProjectId));
    r := Success(kwargs);
  }

  /** `add_comment`'s target check and `comment_data`, insert by insert. */
  method BuildCommentData(content: Value, args: Args) returns (r: Result<Kwargs, string>)
    ensures r == CommentData(content, args)
  {
    if !Truthy(ArgOf(args, TaskId)) && !Truthy(ArgOf(args, ProjectId)) {
      return Failure(NoTargetError);
    }
    var data: Kwargs := map[Content := content];
    data := Step(data, TaskId, IfTruthy, ArgOf(args, TaskId));
    assert Build(data, args, CommentTargetPlan.rest) == Build(map[Content := content], args, CommentTargetPlan);
    data := Step(data, ProjectId, IfTruthy, ArgOf(args, ProjectId));
    r := Success(data);
  }
}
