/** The zod schemas of the todo operations, as parsers from a JSON-like
    value to the typed input they accept. `z.object` ignores keys it does
    not name; a missing key reads as `undefined`. */
module Validations {
  import opened Wrappers
  import TodoRepository

  /** A JavaScript value as the schema receives it. Numbers are integers
      here. */
  datatype Value =
    | Undefined
    | Null
    | Str(s: string)
    | Num(n: int)
    | Bool(b: bool)
    | Obj(fields: map<string, Value>)
    | Arr(items: seq<Value>)

  /** `value[key]` on an object. */
  function Field(fields: map<string, Value>, key: string): Value {
    if key in fields then fields[key] else Value.Undefined
  }

  /** `z.string().min(1).max(255)` */
  predicate TitleOk(v: Value) {
    v.Str? && 1 <= |v.s| <= 255
  }

  /** `z.string().optional().nullable()` */
  predicate OptionalNullableString(v: Value) {
    v.Undefined? || v.Null? || v.Str?
  }

  function AsNullable(v: Value): Nullable<string>
    requires OptionalNullableString(v)
  {
    match v
    case Undefined => Nullable.Undefined
    case Null => Nullable.Null
    case Str(s) => Present(s)
  }

  /** `createTodoSchema.safeParse(v)` */
  function ParseCreate(v: Value): (r: Option<TodoRepository.CreateInput>)
    ensures r.Some? <==>
      v.Obj? && TitleOk(Field(v.fields, "title")) && OptionalNullableString(Field(v.fields, "due_date"))
    ensures r.Some? ==> 1 <= |r.value.title| <= 255 && r.value.title == Field(v.fields, "title").s
  {
    if v.Obj? && TitleOk(Field(v.fields, "title")) && OptionalNullableString(Field(v.fields, "due_date")) then
      Some(TodoRepository.CreateInput(Field(v.fields, "title").s, AsNullable(Field(v.fields, "due_date"))))
    else
      None
  }

  /** What the update schema outputs: the repository's input plus an
      optional `done_flag`. */
  datatype UpdateData = UpdateData(id: int, title: Option<string>, dueDate: Nullable<string>, doneFlag: Option<bool>)

  /** `z.string().min(1).max(255).optional()`: present titles are bounded. */
  predicate OptionalTitleOk(v: Value) {
    v.Undefined? || TitleOk(v)
  }

  /** `z.boolean().optional()` */
  predicate OptionalBoolean(v: Value) {
    v.Undefined? || v.Bool?
  }

  /** `updateTodoSchema.safeParse(v)` */
  function ParseUpdate(v: Value): (r: Option<UpdateData>)
    ensures r.Some? <==>
      && v.Obj?
      && Field(v.fields, "id").Num?
      && OptionalTitleOk(Field(v.fields, "title"))
      && OptionalNullableString(Field(v.fields, "due_date"))
      && OptionalBoolean(Field(v.fields, "done_flag"))
    ensures r.Some? ==> r.value.id == Field(v.fields, "id").n
    ensures r.Some? && r.value.title.Some? ==> 1 <= |r.value.title.value| <= 255
  {
    if && v.Obj?
       && Field(v.fields, "id").Num?
       && OptionalTitleOk(Field(v.fields, "title"))
       && OptionalNullableString(Field(v.fields, "due_date"))
       && OptionalBoolean(Field(v.fields, "done_flag"))
    then
      var title := Field(v.fields, "title");
      var done := Field(v.fields, "done_flag");
      Some(UpdateData(
        Field(v.fields, "id").n,
        if title.Str? then Some(title.s) else None,
        AsNullable(Field(v.fields, "due_date")),
        if done.Bool? then Some(done.b) else None))
    else
      None
  }

  /** `deleteTodoSchema.safeParse(v)` and `toggleTodoSchema.safeParse(v)`:
      both accept exactly an object with a numeric `id`. */
  function ParseId(v: Value): (r: Option<int>)
    ensures r.Some? <==> v.Obj? && Field(v.fields, "id").Num?
    ensures r.Some? ==> r.value == Field(v.fields, "id").n
  {
    if v.Obj? && Field(v.fields, "id").Num? then Some(Field(v.fields, "id").n) else None
  }

  /** The wire form of a create input (what a client sends). */
  function EncodeCreate(c: TodoRepository.CreateInput): Value {
    var due := match c.dueDate
               case Undefined => map[]
               case Null => map["due_date" := Value.Null]
               case Present(d) => map["due_date" := Str(d)];
    Obj(due["title" := Str(c.title)])
  }

  /** A create input survives the wire exactly when its title is 1..255
      long; its due date is never checked, whatever the text. */
  lemma CreateRoundTrip(c: TodoRepository.CreateInput)
    ensures ParseCreate(EncodeCreate(c)) == (if 1 <= |c.title| <= 255 then Some(c) else None)
  {
    var f := EncodeCreate(c).fields;
    assert Field(f, "title") == Str(c.title);
    assert AsNullable(Field(f, "due_date")) == c.dueDate;
  }

  /** The wire form of an update input. */
  function EncodeUpdate(u: UpdateData): Value {
    var m0 := map["id" := Num(u.id)];
    var m1 := if u.title.Some? then m0["title" := Str(u.title.value)] else m0;
    var m2 := match u.dueDate
              case Undefined => m1
              case Null => m1["due_date" := Value.Null]
              case Present(d) => m1["due_date" := Str(d)];
    Obj(if u.doneFlag.Some? then m2["done_flag" := Bool(u.doneFlag.value)] else m2)
  }

  /** An update input survives the wire exactly when a present title is
      1..255 long. */
  lemma UpdateRoundTrip(u: UpdateData)
    ensures ParseUpdate(EncodeUpdate(u)) ==
            (if u.title.None? || 1 <= |u.title.value| <= 255 then Some(u) else None)
  {
    var f := EncodeUpdate(u).fields;
    assert Field(f, "id") == Num(u.id);
    assert Field(f, "title") == if u.title.Some? then Str(u.title.value) else Value.Undefined;
    assert AsNullable(Field(f, "due_date")) == u.dueDate;
    assert Field(f, "done_flag") == if u.doneFlag.Some? then Bool(u.doneFlag.value) else Value.Undefined;
  }

  /** The schema cases the source exercises: an empty title is refused, a
      missing id is refused, an object without an id is refused by the
      delete schema, and extra keys are ignored. */
  lemma SchemaExamples()
    ensures ParseCreate(Obj(map["title" := Str(""), "due_date" := Str("2024-12-31")])).None?
    ensures ParseCreate(Obj(map["title" := Str("Test Todo"), "due_date" := Value.Null])).Some?
    ensures ParseUpdate(Obj(map["title" := Str("Updated Todo")])).None?
    ensures ParseUpdate(Obj(map["id" := Num(1), "title" := Str("Updated Todo"), "done_flag" := Bool(true)])).Some?
    ensures ParseId(Obj(map[])).None?
    ensures ParseId(Obj(map["id" := Num(1), "extra" := Str("x")])) == Some(1)
  {
    assert Field(map["title" := Str(""), "due_date" := Str("2024-12-31")], "title") == Str("");
    assert Field(map["title" := Str("Updated Todo")], "id") == Value.Undefined;
  }
}
