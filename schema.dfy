/**
 * The task entity and its two validation schemas: `insertTaskSchema`
 * (shared/schema.ts:16-25) and `updateTaskSchema` (shared/schema.ts:27-29).
 * Validation is a function from the payload a client sends to either the
 * parsed payload or the set of fields that broke their rule.
 */
module Schema {
  import opened Wrappers

  /** The closed set of categories a payload may name. */
  datatype Category = Work | Personal | Health

  /** The closed set of priorities a payload may name. */
  datatype Priority = Low | Medium | High

  /** The fields that carry a validation rule. */
  datatype Field = TitleField | CategoryField | PriorityField

  /** The spelling of each category on the wire and in the database. */
  function CategoryName(c: Category): string {
    match c
    case Work => "work"
    case Personal => "personal"
    case Health => "health"
  }

  /** The spelling of each priority on the wire and in the database. */
  function PriorityName(p: Priority): string {
    match p
    case Low => "low"
    case Medium => "medium"
    case High => "high"
  }

  /** The strings `z.enum(["work", "personal", "health"])` accepts. */
  const CATEGORY_VALUES: set<string> := {"work", "personal", "health"}

  /** The strings `z.enum(["low", "medium", "high"])` accepts. */
  const PRIORITY_VALUES: set<string> := {"low", "medium", "high"}

  /** The category enum: the inverse of `CategoryName`, failing on any other string. */
  function ParseCategory(s: string): (r: Option<Category>)
    ensures r.Some? <==> s in CATEGORY_VALUES
    ensures r.Some? ==> CategoryName(r.value) == s
  {
    if s == "work" then Some(Work)
    else if s == "personal" then Some(Personal)
    else if s == "health" then Some(Health)
    else None
  }

  /** The priority enum: the inverse of `PriorityName`, failing on any other string. */
  function ParsePriority(s: string): (r: Option<Priority>)
    ensures r.Some? <==> s in PRIORITY_VALUES
    ensures r.Some? ==> PriorityName(r.value) == s
  {
    if s == "low" then Some(Low)
    else if s == "medium" then Some(Medium)
    else if s == "high" then Some(High)
    else None
  }

  /** Naming a category and parsing the name gives the category back. */
  lemma CategoryRoundTrip(c: Category)
    ensures CategoryName(c) in CATEGORY_VALUES
    ensures ParseCategory(CategoryName(c)) == Some(c)
  {
    match c
    case Work =>
    case Personal =>
    case Health =>
  }

  /** Naming a priority and parsing the name gives the priority back. */
  lemma PriorityRoundTrip(p: Priority)
    ensures PriorityName(p) in PRIORITY_VALUES
    ensures ParsePriority(PriorityName(p)) == Some(p)
  {
    match p
    case Low =>
    case Medium =>
    case High =>
  }

  /**
   * A task payload as a client sends it: any key may be missing. `id` and
   * `createdAt` may be sent but are not part of either schema.
   */
  datatype RawTask = RawTask(
    id: Option<int>,
    title: Option<string>,
    description: Option<string>,
    category: Option<string>,
    priority: Option<string>,
    dueDate: Option<string>,
    completed: Option<bool>,
    createdAt: Option<int>)

  /** A payload that passed `insertTaskSchema`. */
  datatype InsertTask = InsertTask(
    title: string,
    description: Option<string>,
    category: Category,
    priority: Priority,
    dueDate: Option<string>,
    completed: Option<bool>)

  /** A payload that passed `updateTaskSchema`: every field optional. */
  datatype UpdateTask = UpdateTask(
    title: Option<string>,
    description: Option<string>,
    category: Option<Category>,
    priority: Option<Priority>,
    dueDate: Option<string>,
    completed: Option<bool>)

  /**
   * A row of the `tasks` table. `category` and `priority` are free-text
   * columns, so a stored row may hold any string there.
   */
  datatype Task = Task(
    id: int,
    title: string,
    description: Option<string>,
    category: string,
    priority: string,
    dueDate: Option<string>,
    completed: bool,
    createdAt: int)

  /** The rule one field must meet when the schema requires it. */
  ghost predicate FieldOk(raw: RawTask, f: Field) {
    match f
    case TitleField => raw.title.Some? && |raw.title.value| >= 1
    case CategoryField => raw.category.Some? && raw.category.value in CATEGORY_VALUES
    case PriorityField => raw.priority.Some? && raw.priority.value in PRIORITY_VALUES
  }

  /** The rule one field must meet when, as in an update, it may be left out. */
  ghost predicate OptionalFieldOk(raw: RawTask, f: Field) {
    match f
    case TitleField => raw.title.None? || FieldOk(raw, f)
    case CategoryField => raw.category.None? || FieldOk(raw, f)
    case PriorityField => raw.priority.None? || FieldOk(raw, f)
  }

  /** `insertTaskSchema.parse`: all three rules hold, or the fields that broke theirs. */
  function ParseInsert(raw: RawTask): (r: Result<InsertTask, set<Field>>)
    ensures r.Success? <==> forall f :: FieldOk(raw, f)
    ensures r.Failure? ==> r.error != {} && forall f :: f in r.error <==> !FieldOk(raw, f)
    ensures r.Success? ==>
      && raw.title == Some(r.value.title)
      && raw.category == Some(CategoryName(r.value.category))
      && raw.priority == Some(PriorityName(r.value.priority))
      && r.value.description == raw.description
      && r.value.dueDate == raw.dueDate
      && r.value.completed == raw.completed
  {
    var badTitle := raw.title.None? || |raw.title.value| == 0;
    var category := if raw.category.Some? then ParseCategory(raw.category.value) else None;
    var priority := if raw.priority.Some? then ParsePriority(raw.priority.value) else None;
    var errors :=
      (if badTitle then {TitleField} else {}) +
      (if category.None? then {CategoryField} else {}) +
      (if priority.None? then {PriorityField} else {});
    assert FieldOk(raw, TitleField) <==> !badTitle;
    assert FieldOk(raw, CategoryField) <==> category.Some?;
    assert FieldOk(raw, PriorityField) <==> priority.Some?;
    if errors == {} then
      Success(InsertTask(raw.title.value, raw.description, category.value, priority.value,
                         raw.dueDate, raw.completed))
    else
      Failure(errors)
  }

  /** `updateTaskSchema.parse`: every present field meets its rule, or the fields that do not. */
  function ParseUpdate(raw: RawTask): (r: Result<UpdateTask, set<Field>>)
    ensures r.Success? <==> forall f :: OptionalFieldOk(raw, f)
    ensures r.Failure? ==> r.error != {} && forall f :: f in r.error <==> !OptionalFieldOk(raw, f)
    ensures r.Success? ==>
      && r.value.title == raw.title
      && (r.value.category.Some? <==> raw.category.Some?)
      && (r.value.category.Some? ==> CategoryName(r.value.category.value) == raw.category.value)
      && (r.value.priority.Some? <==> raw.priority.Some?)
      && (r.value.priority.Some? ==> PriorityName(r.value.priority.value) == raw.priority.value)
      && r.value.description == raw.description
      && r.value.dueDate == raw.dueDate
      && r.value.completed == raw.completed
  {
    var badTitle := raw.title.Some? && |raw.title.value| == 0;
    var category := if raw.category.Some? then ParseCategory(raw.category.value) else None;
    var priority := if raw.priority.Some? then ParsePriority(raw.priority.value) else None;
    var errors :=
      (if badTitle then {TitleField} else {}) +
      (if raw.category.Some? && category.None? then {CategoryField} else {}) +
      (if raw.priority.Some? && priority.None? then {PriorityField} else {});
    assert OptionalFieldOk(raw, TitleField) <==> !badTitle;
    assert OptionalFieldOk(raw, CategoryField) <==> !(raw.category.Some? && category.None?);
    assert OptionalFieldOk(raw, PriorityField) <==> !(raw.priority.Some? && priority.None?);
    if errors == {} then
      Success(UpdateTask(raw.title, raw.description, category, priority, raw.dueDate, raw.completed))
    else
      Failure(errors)
  }

  /** An empty title is rejected, whatever the other fields hold. */
  lemma EmptyTitleRejected(raw: RawTask)
    requires raw.title == Some("")
    ensures ParseInsert(raw).Failure? && TitleField in ParseInsert(raw).error
    ensures ParseUpdate(raw).Failure? && TitleField in ParseUpdate(raw).error
  {
    assert !FieldOk(raw, TitleField);
    assert !OptionalFieldOk(raw, TitleField);
  }

  /** `description` and `dueDate` never decide whether a payload is accepted. */
  lemma OptionalFieldsNeverReject(raw: RawTask, description: Option<string>, dueDate: Option<string>)
    ensures ParseInsert(raw.(description := description, dueDate := dueDate)).Success?
        == ParseInsert(raw).Success?
    ensures ParseUpdate(raw.(description := description, dueDate := dueDate)).Success?
        == ParseUpdate(raw).Success?
  {
    var other := raw.(description := description, dueDate := dueDate);
    assert forall f :: FieldOk(other, f) == FieldOk(raw, f);
    assert forall f :: OptionalFieldOk(other, f) == OptionalFieldOk(raw, f);
  }

  /** `id` and `createdAt` are stripped: sending them changes nothing in the parsed payload. */
  lemma ServerFieldsIgnored(raw: RawTask, id: Option<int>, createdAt: Option<int>)
    ensures ParseInsert(raw.(id := id, createdAt := createdAt)) == ParseInsert(raw)
    ensures ParseUpdate(raw.(id := id, createdAt := createdAt)) == ParseUpdate(raw)
  {
  }

  /** The update view of an accepted insert payload: every field present. */
  function AsUpdate(ins: InsertTask): UpdateTask {
    UpdateTask(Some(ins.title), ins.description, Some(ins.category), Some(ins.priority),
               ins.dueDate, ins.completed)
  }

  /** Every payload the insert schema accepts, the update schema accepts with the same values. */
  lemma InsertImpliesUpdate(raw: RawTask)
    requires ParseInsert(raw).Success?
    ensures ParseUpdate(raw) == Success(AsUpdate(ParseInsert(raw).value))
  {
    var ins := ParseInsert(raw).value;
    assert forall f :: FieldOk(raw, f) ==> OptionalFieldOk(raw, f);
    assert FieldOk(raw, CategoryField) && FieldOk(raw, PriorityField);
    var upd := ParseUpdate(raw).value;
    CategoryRoundTrip(ins.category);
    CategoryRoundTrip(upd.category.value);
    PriorityRoundTrip(ins.priority);
    PriorityRoundTrip(upd.priority.value);
  }

  /**
   * The row storage makes of an accepted insert payload: `id` and
   * `createdAt` come from storage, `completed` defaults to false.
   */
  function Create(id: int, createdAt: int, ins: InsertTask): (t: Task)
    ensures t.id == id && t.createdAt == createdAt
    ensures t.completed == (ins.completed == Some(true))
  {
    Task(id, ins.title, ins.description, CategoryName(ins.category), PriorityName(ins.priority),
         ins.dueDate, ins.completed.GetOr(false), createdAt)
  }

  /** Creating from a payload and reading the row back gives the payload's fields. */
  lemma CreateRoundTrip(raw: RawTask, id: int, createdAt: int)
    requires ParseInsert(raw).Success?
    ensures var t := Create(id, createdAt, ParseInsert(raw).value);
      && t.title == raw.title.value && |t.title| >= 1
      && t.description == raw.description
      && t.category == raw.category.value && t.category in CATEGORY_VALUES
      && t.priority == raw.priority.value && t.priority in PRIORITY_VALUES
      && t.dueDate == raw.dueDate
      && (raw.completed.None? ==> !t.completed)
  {
    assert FieldOk(raw, TitleField) && FieldOk(raw, CategoryField) && FieldOk(raw, PriorityField);
  }

  /**
   * A partial update applied to a stored row: each present field replaces
   * the stored one, absent fields and `id`/`createdAt` are kept.
   */
  function ApplyUpdate(t: Task, u: UpdateTask): (r: Task)
    ensures r.id == t.id && r.createdAt == t.createdAt
    ensures u.title.Some? ==> r.title == u.title.value
    ensures u.title.None? ==> r.title == t.title
    ensures u.description.Some? ==> r.description == u.description
    ensures u.description.None? ==> r.description == t.description
    ensures u.category.Some? ==> r.category == CategoryName(u.category.value)
    ensures u.category.None? ==> r.category == t.category
    ensures u.priority.Some? ==> r.priority == PriorityName(u.priority.value)
    ensures u.priority.None? ==> r.priority == t.priority
    ensures u.dueDate.Some? ==> r.dueDate == u.dueDate
    ensures u.dueDate.None? ==> r.dueDate == t.dueDate
    ensures u.completed.Some? ==> r.completed == u.completed.value
    ensures u.completed.None? ==> r.completed == t.completed
  {
    Task(t.id,
         u.title.GetOr(t.title),
         if u.description.Some? then u.description else t.description,
         if u.category.Some? then CategoryName(u.category.value) else t.category,
         if u.priority.Some? then PriorityName(u.priority.value) else t.priority,
         if u.dueDate.Some? then u.dueDate else t.dueDate,
         u.completed.GetOr(t.completed),
         t.createdAt)
  }

  /** Applying the same update twice gives the same row as applying it once. */
  lemma UpdateIdempotent(t: Task, u: UpdateTask)
    ensures ApplyUpdate(ApplyUpdate(t, u), u) == ApplyUpdate(t, u)
  {
  }
}
