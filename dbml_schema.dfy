/** The older Drizzle schema generator (`generate-schema.js`). It reads the
    column shape `{ name, type: { type_name, args }, settings: { pk,
    not_null, default } }`. It renders one column call per column and
    returns no references. It derives relations from the refs with the
    sides picked by which endpoint names a table. It emits two type
    aliases per table and a fixed block of composite types, and adds
    foreign-key columns for `todo_id` and `user_id`. */
module DbmlSchema {
  import opened Wrappers
  import opened Strings
  import opened JsCollections
  import opened Dbml
  import DbmlDrizzle

  /** `column.settings`; `default` is present exactly when
      `hasOwnProperty('default')` holds. */
  datatype Settings = Settings(pk: bool, notNull: bool, default: Option<DefaultValue>)

  /** A column as this generator reads it; `firstArg` is `type.args[0]`,
      absent when `type.args` or its first element is missing. */
  datatype Column = Column(name: string, typeName: string, firstArg: Option<string>, settings: Settings)

  datatype SchemaTable = SchemaTable(name: string, fields: seq<Column>)

  /** `typeMapping[t]`: eight entries, each mapping a type to itself. */
  function SchemaTypeMapping(t: string): (r: Option<string>)
    ensures r.Some? <==> t in ["serial", "integer", "text", "varchar", "date", "timestamp", "boolean", "jsonb"]
    ensures r.Some? ==> r.value == t
  {
    if t in ["serial", "integer", "text", "varchar", "date", "timestamp", "boolean", "jsonb"] then Some(t)
    else None
  }

  /** `typeMapping[type_name] || type_name`: the type name itself, whether
      or not the mapping knows it, since every entry maps a name to itself
      and an unknown name falls back to the raw name. */
  function DrizzleType(t: string): (r: string)
    ensures r == t
  {
    var mapped := SchemaTypeMapping(t);
    if mapped.Some? && mapped.value != "" then mapped.value else t
  }

  /** Whether `type.args && type.args[0]` is truthy. */
  predicate HasLength(c: Column) {
    c.firstArg.Some? && c.firstArg.value != ""
  }

  /** The column call before any constraint: a `varchar` with a length
      for a varchar with a first argument, otherwise the raw type name
      called with the column name. There is no `text` fallback here. */
  function SchemaBase(c: Column): (r: string)
    ensures c.typeName == "varchar" && HasLength(c) ==>
      r == "varchar('" + c.name + "', { length: " + c.firstArg.value + " })"
    ensures !(c.typeName == "varchar" && HasLength(c)) ==> r == c.typeName + "('" + c.name + "')"
  {
    if c.typeName == "varchar" && HasLength(c) then "varchar('" + c.name + "', { length: " + c.firstArg.value + " })"
    else DrizzleType(c.typeName) + "('" + c.name + "')"
  }

  /** A value as a template literal prints it in the last branch of the
      default handling: numbers in decimal, objects as `[object Object]`. */
  function ValueText(v: DefaultValue): string {
    match v
    case DefString(s) => s
    case DefBool(b) => DbmlDrizzle.BoolText(b)
    case DefNumber(n) => IntToString(n)
    case DefObject(_) => "[object Object]"
  }

  /** Whether a string default is a JSON object literal, `{...}`. */
  predicate Braced(s: string) {
    StartsWith(s, "{") && EndsWith(s, "}")
  }

  /** The default suffix: `.defaultNow()` for `'now()'`, the raw text for
      booleans, for braced strings and for other values, and a quoted
      string for every other string. */
  function SchemaDefault(d: Option<DefaultValue>): (r: string)
    ensures r == "" <==> d.None?
    ensures d.Some? ==> StartsWith(r, ".default")
    ensures r == ".defaultNow()" <==> d == Some(DefString("now()"))
    ensures d.Some? && d.value.DefBool? ==> r == ".default(" + DbmlDrizzle.BoolText(d.value.b) + ")"
    ensures d.Some? && d.value.DefString? && d.value.s != "now()" ==>
      r == if Braced(d.value.s) then ".default(" + d.value.s + ")" else ".default('" + d.value.s + "')"
    ensures d.Some? && d.value.DefObject? ==> r == ".default([object Object])"
    ensures d.Some? && d.value.DefNumber? ==> r == ".default(" + IntToString(d.value.n) + ")"
  {
    match d
    case None => ""
    case Some(v) =>
      if v == DefString("now()") then ".defaultNow()"
      else
        var text := if v.DefString? && !Braced(v.s) then "'" + v.s + "'" else ValueText(v);
        var r := ".default(" + text + ")";
        assert r[8] == '(';
        r
  }

  /** The constraint and default suffixes after the column call. */
  function SchemaSuffix(s: Settings): string {
    (if s.pk then ".primaryKey()" else "") + (if s.notNull then ".notNull()" else "") + SchemaDefault(s.default)
  }

  /** The whole column definition. */
  function SchemaColumn(c: Column): string {
    SchemaBase(c) + SchemaSuffix(c.settings)
  }

  /** Reading the suffix from the left: `.primaryKey()` comes first exactly
      for a key, `.notNull()` next exactly when `not_null` is set. */
  lemma SchemaSuffixShapes(s: Settings)
    ensures StartsWith(SchemaSuffix(s), ".primaryKey()") <==> s.pk
    ensures StartsWith(SchemaSuffix(s)[(if s.pk then 13 else 0)..], ".notNull()") <==> s.notNull
  {
    DefaultTailShape(s.default);
    DbmlDrizzle.SuffixShapes(s.pk, s.notNull, SchemaDefault(s.default));
  }

  /** A default part is empty or starts with `.d`. */
  lemma DefaultTailShape(d: Option<DefaultValue>)
    ensures SchemaDefault(d) == "" || (|SchemaDefault(d)| > 1 && SchemaDefault(d)[1] == 'd')
  {
    var tail := SchemaDefault(d);
    if d.Some? {
      assert tail[..8] == ".default";
      assert tail[1] == tail[..8][1];
    }
  }

  /** `generateColumn`: the column call, then `.primaryKey()` exactly for
      a key and `.notNull()` exactly for `not_null`, then the default. */
  method GenerateColumn(c: Column) returns (columnDef: string)
    ensures columnDef == SchemaColumn(c)
    ensures StartsWith(columnDef[|SchemaBase(c)|..], ".primaryKey()") <==> c.settings.pk
    ensures StartsWith(columnDef[|SchemaBase(c)| + (if c.settings.pk then 13 else 0)..], ".notNull()") <==>
      c.settings.notNull
  {
    columnDef := ColumnCall(c);
    columnDef := AppendConstraints(columnDef, c.settings);
  }

  /** The column call part of `generateColumn`. */
  method ColumnCall(c: Column) returns (columnDef: string)
    ensures columnDef == SchemaBase(c)
  {
    var drizzleType := DrizzleType(c.typeName);
    columnDef := drizzleType + "('" + c.name + "'";
    if c.typeName == "varchar" && HasLength(c) {
      columnDef := "varchar('" + c.name + "', { length: " + c.firstArg.value + " }";
    }
    columnDef := columnDef + ")";
  }

  /** The constraint and default part of `generateColumn`. */
  method AppendConstraints(base: string, s: Settings) returns (columnDef: string)
    ensures columnDef == base + SchemaSuffix(s)
    ensures StartsWith(columnDef[|base|..], ".primaryKey()") <==> s.pk
    ensures StartsWith(columnDef[|base| + (if s.pk then 13 else 0)..], ".notNull()") <==> s.notNull
  {
    ghost var keyPart := if s.pk then ".primaryKey()" else "";
    ghost var nullPart := if s.notNull then ".notNull()" else "";
    columnDef := base;
    if s.pk {
      columnDef := columnDef + ".primaryKey()";
    }
    if s.notNull {
      columnDef := columnDef + ".notNull()";
    }
    assert columnDef == base + keyPart + nullPart;
    var defaultPart := DefaultPart(s.default);
    columnDef := columnDef + defaultPart;
    DbmlDrizzle.SuffixAfterBase(base, keyPart, nullPart, defaultPart);
    SchemaSuffixShapes(s);
  }

  /** The `hasOwnProperty('default')` branch of `generateColumn`. */
  method DefaultPart(d: Option<DefaultValue>) returns (part: string)
    ensures part == SchemaDefault(d)
  {
    part := "";
    if d.Some? {
      var defaultValue := d.value;
      if defaultValue == DefString("now()") {
        part := ".defaultNow()";
      } else if defaultValue.DefBool? {
        part := ".default(" + DbmlDrizzle.BoolText(defaultValue.b) + ")";
      } else if defaultValue.DefString? {
        if StartsWith(defaultValue.s, "{") && EndsWith(defaultValue.s, "}") {
          part := ".default(" + defaultValue.s + ")";
        } else {
          part := ".default('" + defaultValue.s + "')";
        }
      } else {
        part := ".default(" + ValueText(defaultValue) + ")";
      }
    }
  }

  /** The two generators disagree on a key that is not marked not null:
      the other generator forces `.notNull()` after `.primaryKey()`, this
      one does not. */
  lemma KeyNotNullDiffers(d: Option<DefaultValue>)
    ensures StartsWith(DbmlDrizzle.ColumnSuffix(true, true, d)[13..], ".notNull()")
    ensures !StartsWith(SchemaSuffix(Settings(true, false, d))[13..], ".notNull()")
  {
    DbmlDrizzle.ColumnSuffixShapes(true, true, d);
    SchemaSuffixShapes(Settings(true, false, d));
  }

  /** `generateReferences`: it visits every integer and varchar column and
      builds its `table.column` name, but never records anything. */
  method GenerateReferences(tables: seq<SchemaTable>) returns (references: seq<string>)
    ensures references == []
  {
    references := [];
    for i := 0 to |tables|
      invariant references == []
    {
      var table := tables[i];
      for j := 0 to |table.fields|
        invariant references == []
      {
        var column := table.fields[j];
        if column.typeName == "integer" || column.typeName == "varchar" {
          var refName := table.name + "." + column.name;
        }
      }
    }
  }

  /** The `[leftTable, leftField]` of a ref: the first endpoint when it
      names a table, the second otherwise. */
  function LeftTable(r: Ref): Nullable<string> {
    if HasTable(r.from) then r.from.tableName else r.to.tableName
  }

  function LeftField(r: Ref): string {
    if HasTable(r.from) then FirstFieldText(r.from.fieldNames) else FirstFieldText(r.to.fieldNames)
  }

  /** The `[rightTable, rightField]` of a ref: the second endpoint when it
      names a table, the first otherwise. */
  function RightTable(r: Ref): Nullable<string> {
    if HasTable(r.to) then r.to.tableName else r.from.tableName
  }

  function RightField(r: Ref): string {
    if HasTable(r.to) then FirstFieldText(r.to.fieldNames) else FirstFieldText(r.from.fieldNames)
  }

  /** The 'many' entry a ref gives its right table. */
  function ManyOf(r: Ref): Relation {
    Many(NullableText(LeftTable(r)), NullableText(LeftTable(r)))
  }

  /** The 'one' entry a ref gives its left table. */
  function OneOf(r: Ref): Relation {
    One(NullableText(RightTable(r)), NullableText(RightTable(r)), LeftField(r), RightField(r))
  }

  /** The relations map, one ref at a time: the 'many' entry on the right
      table first, then the 'one' entry on the left table. Keys are the
      table names as JavaScript values, so a missing name is a key of its
      own. */
  function SchemaRelationsMap(refs: seq<Ref>): (m: seq<Entry<Nullable<string>, Relation>>)
    ensures DistinctKeys(m)
    decreases |refs|
  {
    if |refs| == 0 then []
    else
      var r := refs[|refs| - 1];
      Push(Push(SchemaRelationsMap(refs[..|refs| - 1]), RightTable(r), ManyOf(r)), LeftTable(r), OneOf(r))
  }

  /** The relations one table gets, ref by ref. */
  function SchemaRelationsOf(refs: seq<Ref>, table: Nullable<string>): seq<Relation>
    decreases |refs|
  {
    if |refs| == 0 then []
    else
      var r := refs[|refs| - 1];
      SchemaRelationsOf(refs[..|refs| - 1], table) +
      (if RightTable(r) == table then [ManyOf(r)] else []) +
      (if LeftTable(r) == table then [OneOf(r)] else [])
  }

  /** Each table's relations in the map are the ones `SchemaRelationsOf`
      lists. */
  lemma {:induction false} SchemaRelationsGrouped(refs: seq<Ref>, table: Nullable<string>)
    ensures Get(SchemaRelationsMap(refs), table) == SchemaRelationsOf(refs, table)
    decreases |refs|
  {
    if |refs| > 0 {
      var init := refs[..|refs| - 1];
      var r := refs[|refs| - 1];
      SchemaRelationsGrouped(init, table);
      PushTwice(SchemaRelationsMap(init), RightTable(r), ManyOf(r), LeftTable(r), OneOf(r), table);
    }
  }

  /** Every ref adds one 'many' entry to its right table and one 'one'
      entry to its left table, and nothing else. */
  lemma {:induction false} SchemaRelationsCount(refs: seq<Ref>, table: Nullable<string>)
    ensures |SchemaRelationsOf(refs, table)| ==
      |Filter(refs, (r: Ref) => RightTable(r) == table)| + |Filter(refs, (r: Ref) => LeftTable(r) == table)|
    decreases |refs|
  {
    if |refs| > 0 {
      var init := refs[..|refs| - 1];
      var r := refs[|refs| - 1];
      SchemaRelationsCount(init, table);
      assert refs == init + [r];
      FilterSnocCount(init, r, (r: Ref) => RightTable(r) == table);
      FilterSnocCount(init, r, (r: Ref) => LeftTable(r) == table);
    }
  }

  /** A ref between two named tables: the referenced (second) table is
      keyed first with a 'many' entry, then the first table with a 'one'
      entry joining the two fields. */
  lemma OneRefRelations(r: Ref)
    requires HasTable(r.from) && HasTable(r.to) && r.from.tableName != r.to.tableName
    ensures SchemaRelationsMap([r]) ==
      [Entry(r.to.tableName, [Many(r.from.tableName.value, r.from.tableName.value)]),
       Entry(r.from.tableName, [One(r.to.tableName.value, r.to.tableName.value,
                                    FirstFieldText(r.from.fieldNames), FirstFieldText(r.to.fieldNames))])]
  {
    assert [r][..0] == [];
    var m1 := Push([], RightTable(r), ManyOf(r));
    assert m1 == [Entry(r.to.tableName, [ManyOf(r)])];
    assert Push([], LeftTable(r), OneOf(r)) == [Entry(r.from.tableName, [OneOf(r)])];
    assert Push(m1, LeftTable(r), OneOf(r)) == [m1[0]] + Push(m1[1..], LeftTable(r), OneOf(r));
  }

  /** A ref whose first endpoint names no table relates the second table
      to itself: both entries land on it, and the 'one' entry joins its
      field to itself. */
  lemma MissingTableRelatesToItself(r: Ref)
    requires !HasTable(r.from) && HasTable(r.to)
    ensures var t := r.to.tableName.value;
      var f := FirstFieldText(r.to.fieldNames);
      SchemaRelationsMap([r]) == [Entry(r.to.tableName, [Many(t, t), One(t, t, f, f)])]
  {
    assert [r][..0] == [];
    var m1 := Push([], RightTable(r), ManyOf(r));
    assert m1 == [Entry(r.to.tableName, [ManyOf(r)])];
    assert LeftTable(r) == RightTable(r) == r.to.tableName;
    assert m1[0].key == LeftTable(r) && m1[1..] == [];
    assert m1[0].values + [OneOf(r)] == [ManyOf(r), OneOf(r)];
  }

  /** One more ref pushes its 'many' and its 'one' entry. */
  lemma SchemaRelationsMapSnoc(refs: seq<Ref>, i: nat)
    requires i < |refs|
    ensures SchemaRelationsMap(refs[..i + 1]) ==
      Push(Push(SchemaRelationsMap(refs[..i]), RightTable(refs[i]), ManyOf(refs[i])), LeftTable(refs[i]), OneOf(refs[i]))
  {
    assert refs[..i + 1][..i] == refs[..i];
  }

  /** `generateRelations`: nothing without refs; otherwise the relations
      map filled ref by ref, then one block per key in key order. */
  method GenerateRelations(refs: Option<seq<Ref>>) returns (relations: seq<string>)
    ensures refs.None? ==> relations == []
    ensures refs.Some? ==> var m := SchemaRelationsMap(refs.value);
      |relations| == |m| &&
      forall k :: 0 <= k < |m| ==> relations[k] == RelationsBlock(NullableText(m[k].key), m[k].values)
  {
    relations := [];
    if refs.Some? {
      var rs := refs.value;
      var relationsMap: seq<Entry<Nullable<string>, Relation>> := [];
      for i := 0 to |rs|
        invariant relationsMap == SchemaRelationsMap(rs[..i])
      {
        var ref := rs[i];
        var leftTable := if HasTable(ref.from) then ref.from.tableName else ref.to.tableName;
        var leftField := if HasTable(ref.from) then FirstFieldText(ref.from.fieldNames) else FirstFieldText(ref.to.fieldNames);
        var rightTable := if HasTable(ref.to) then ref.to.tableName else ref.from.tableName;
        var rightField := if HasTable(ref.to) then FirstFieldText(ref.to.fieldNames) else FirstFieldText(ref.from.fieldNames);
        relationsMap := Push(relationsMap, rightTable, Many(NullableText(leftTable), NullableText(leftTable)));
        relationsMap := Push(relationsMap, leftTable,
                             One(NullableText(rightTable), NullableText(rightTable), leftField, rightField));
        SchemaRelationsMapSnoc(rs, i);
      }
      assert rs[..|rs|] == rs;
      relations := RenderSchemaRelations(relationsMap);
    }
  }

  /** The `relationsMap.forEach` of `generateRelations`. */
  method RenderSchemaRelations(relationsMap: seq<Entry<Nullable<string>, Relation>>) returns (relations: seq<string>)
    ensures |relations| == |relationsMap|
    ensures forall k :: 0 <= k < |relationsMap| ==>
      relations[k] == RelationsBlock(NullableText(relationsMap[k].key), relationsMap[k].values)
  {
    relations := [];
    for k := 0 to |relationsMap|
      invariant |relations| == k
      invariant forall t :: 0 <= t < k ==>
        relations[t] == RelationsBlock(NullableText(relationsMap[t].key), relationsMap[t].values)
    {
      relations := relations + [RelationsBlock(NullableText(relationsMap[k].key), relationsMap[k].values)];
    }
  }

  /** The type aliases of one table: its select type and its insert type. */
  function SelectAlias(typeName: string, tableName: string): string {
    "export type " + typeName + " = typeof " + tableName + ".$inferSelect;"
  }

  function InsertAlias(typeName: string, tableName: string): string {
    "export type New" + typeName + " = typeof " + tableName + ".$inferInsert;"
  }

  /** The fixed block `generateTypes` ends with: two composite types and
      three serialized types. */
  const CompositeTypes: string :=
    "\nexport type TodoWithAuditLogs = Todo & {\n  auditLogs: AuditLog[];\n};\n\n" +
    "export type UserWithAppsAndRoles = User & {\n  apps: UserApp[];\n  roles: UserRole[];\n};\n\n" +
    "// Serialized types for tRPC (Date -> string)\n" +
    "export type TodoSerialized = Omit<Todo, 'created_at' | 'updated_at' | 'deleted_at'> & {\n" +
    "  created_at: string;\n  updated_at: string;\n  deleted_at: string | null;\n};\n\n" +
    "export type AuditLogSerialized = Omit<AuditLog, 'created_at'> & {\n  created_at: string;\n};\n\n" +
    "export type TodoWithAuditLogsSerialized = Omit<TodoSerialized, 'auditLogs'> & {\n" +
    "  auditLogs: AuditLogSerialized[];\n};"

  /** The table types the composite block builds on. */
  const CompositeNames: seq<string> := ["Todo", "AuditLog", "User", "UserApp", "UserRole"]

  /** The tables of this application's schema. */
  const AppTables: seq<string> := ["todos", "audit_logs", "users", "user_apps", "user_roles"]

  /** The loop of `generateTypes`, with the per-table type name given:
      two aliases per table in table order, then the composite block. */
  method TypeAliases(tables: seq<SchemaTable>, typeName: string -> string) returns (types: seq<string>)
    ensures |types| == 2 * |tables| + 1
    ensures forall k :: 0 <= k < |tables| ==>
      types[2 * k] == SelectAlias(typeName(tables[k].name), tables[k].name) &&
      types[2 * k + 1] == InsertAlias(typeName(tables[k].name), tables[k].name)
    ensures types[2 * |tables|] == CompositeTypes
  {
    types := [];
    for i := 0 to |tables|
      invariant |types| == 2 * i
      invariant forall k :: 0 <= k < i ==>
        types[2 * k] == SelectAlias(typeName(tables[k].name), tables[k].name) &&
        types[2 * k + 1] == InsertAlias(typeName(tables[k].name), tables[k].name)
    {
      var tableName := tables[i].name;
      var name := typeName(tableName);
      types := types + [SelectAlias(name, tableName)];
      types := types + [InsertAlias(name, tableName)];
    }
    types := types + [CompositeTypes];
  }

  /** `generateTypes` as written: the aliases are named by the PascalCase
      of the table name. */
  method GenerateTypes(tables: seq<SchemaTable>) returns (types: seq<string>)
    ensures |types| == 2 * |tables| + 1
    ensures forall k :: 0 <= k < |tables| ==>
      types[2 * k] == SelectAlias(PascalCase(tables[k].name), tables[k].name) &&
      types[2 * k + 1] == InsertAlias(PascalCase(tables[k].name), tables[k].name)
    ensures types[2 * |tables|] == CompositeTypes
  {
    types := TypeAliases(tables, PascalCase);
  }

  /** `generateTypes` with the aliases named as the composite block
      expects: the singular entity name for the known tables. */
  method GenerateEntityTypes(tables: seq<SchemaTable>) returns (types: seq<string>)
    ensures |types| == 2 * |tables| + 1
    ensures forall k :: 0 <= k < |tables| ==>
      types[2 * k] == SelectAlias(DbmlDrizzle.EntityName(tables[k].name), tables[k].name) &&
      types[2 * k + 1] == InsertAlias(DbmlDrizzle.EntityName(tables[k].name), tables[k].name)
    ensures types[2 * |tables|] == CompositeTypes
  {
    types := TypeAliases(tables, DbmlDrizzle.EntityName);
  }

  /** The select type names the aliases of the given tables declare. */
  function DeclaredNames(tableNames: seq<string>, typeName: string -> string): (r: seq<string>)
    ensures |r| == |tableNames|
    ensures forall k :: 0 <= k < |r| ==> r[k] == typeName(tableNames[k])
  {
    seq(|tableNames|, k requires 0 <= k < |tableNames| => typeName(tableNames[k]))
  }

  /** PascalCase gives every table of this application a plural name. */
  lemma PascalCaseAppTables()
    ensures forall i :: 0 <= i < |AppTables| ==> PluralName(PascalCase(AppTables[i]))
  {
    forall i | 0 <= i < |AppTables|
      ensures PluralName(PascalCase(AppTables[i]))
    {
      AppTablePlural(i);
    }
  }

  lemma AppTablePlural(i: nat)
    requires i < |AppTables|
    ensures PluralName(PascalCase(AppTables[i]))
  {
    if i == 0 {
      PascalCaseTodos();
      assert PluralName("Todos");
    } else if i == 1 {
      PascalCaseAuditLogs();
      assert PluralName("AuditLogs");
    } else if i == 2 {
      PascalCaseUsers();
      assert PluralName("Users");
    } else if i == 3 {
      PascalCaseUserApps();
      assert PluralName("UserApps");
    } else {
      PascalCaseUserRoles();
      assert PluralName("UserRoles");
    }
  }

  /** A name ending in `s`. */
  predicate PluralName(n: string) {
    |n| > 0 && n[|n| - 1] == 's'
  }

  /** As written, none of the table types the composite block builds on
      is declared for this application's tables: the aliases carry the
      plural names (`Todos`, `AuditLogs`, ...). */
  lemma CompositeNamesUndeclared()
    ensures forall n :: n in CompositeNames ==> n !in DeclaredNames(AppTables, PascalCase)
  {
    PascalCaseAppTables();
    var d := DeclaredNames(AppTables, PascalCase);
    forall n | n in CompositeNames
      ensures n !in d
    {
      assert !PluralName(n);
      forall i | 0 <= i < |d| ensures d[i] != n {
        assert PluralName(d[i]);
      }
    }
  }

  /** Named by entity, the aliases of this application's tables declare
      exactly the table types the composite block builds on, in order. */
  lemma CompositeNamesDeclared()
    ensures DeclaredNames(AppTables, DbmlDrizzle.EntityName) == CompositeNames
  {
  }

  /** The foreign-key column of `todo_id`. */
  const TodoFkLine: string := TodoIdKey + "integer('todo_id').notNull().references(() => todos.id),"

  /** The start of a column line keyed `todo_id`. */
  const TodoIdKey: string := "  " + "todo_id" + ": "

  /** The foreign-key column of `user_id`: a varchar, whatever the type of
      the field it stands for. */
  const UserFkLine: string := "  user_id: varchar('user_id', { length: 256 }).notNull().references(() => users.user_id),"

  /** The first filter: integer fields whose name ends in `_id`. */
  predicate FkCandidate(c: Column) {
    c.typeName == "integer" && EndsWith(c.name, "_id")
  }

  /** The map step: a line for `todo_id` and `user_id`, `null` otherwise. */
  function FkLine(c: Column): Option<string> {
    if c.name == "todo_id" then Some(TodoFkLine)
    else if c.name == "user_id" then Some(UserFkLine)
    else None
  }

  function FkLines(cs: seq<Column>): (r: seq<Option<string>>)
    ensures |r| == |cs|
    ensures forall k :: 0 <= k < |r| ==> r[k] == FkLine(cs[k])
  {
    seq(|cs|, k requires 0 <= k < |cs| => FkLine(cs[k]))
  }

  /** `.filter(Boolean)`: the lines, without the nulls. */
  function PresentLines(os: seq<Option<string>>): seq<string>
    decreases |os|
  {
    if |os| == 0 then []
    else (if os[0].Some? then [os[0].value] else []) + PresentLines(os[1..])
  }

  /** The `references` of a table in `generateDrizzleSchema`. */
  function FkColumns(fields: seq<Column>): seq<string> {
    PresentLines(FkLines(Filter(fields, FkCandidate)))
  }

  /** The fields that get a foreign-key column: integers named exactly
      `todo_id` or `user_id`. */
  predicate KnownFk(c: Column) {
    c.typeName == "integer" && (c.name == "todo_id" || c.name == "user_id")
  }

  function KnownFkLines(cs: seq<Column>): (r: seq<string>)
    ensures |r| == |cs|
    ensures forall k :: 0 <= k < |r| ==> r[k] == if cs[k].name == "todo_id" then TodoFkLine else UserFkLine
  {
    seq(|cs|, k requires 0 <= k < |cs| => if cs[k].name == "todo_id" then TodoFkLine else UserFkLine)
  }

  /** Foreign-key columns are emitted for the integer `todo_id` and
      `user_id` fields and no other, one each, in field order. */
  lemma {:induction false} ForeignKeyColumns(fields: seq<Column>)
    ensures FkColumns(fields) == KnownFkLines(Filter(fields, KnownFk))
    decreases |fields|
  {
    if |fields| > 0 {
      var c := fields[0];
      var rest := fields[1..];
      ForeignKeyColumns(rest);
      KnownFkCandidate(c);
      if FkCandidate(c) {
        assert Filter(fields, FkCandidate) == [c] + Filter(rest, FkCandidate);
        FkLinesCons(c, Filter(rest, FkCandidate));
        PresentLinesCons(FkLine(c), FkLines(Filter(rest, FkCandidate)));
        if KnownFk(c) {
          assert Filter(fields, KnownFk) == [c] + Filter(rest, KnownFk);
          KnownFkLinesCons(c, Filter(rest, KnownFk));
        }
      }
    }
  }

  lemma KnownFkCandidate(c: Column)
    ensures KnownFk(c) ==> FkCandidate(c)
  {
    if KnownFk(c) {
      assert c.name[|c.name| - 3..] == "_id";
    }
  }

  lemma FkLinesCons(c: Column, cs: seq<Column>)
    ensures FkLines([c] + cs) == [FkLine(c)] + FkLines(cs)
  {
  }

  lemma KnownFkLinesCons(c: Column, cs: seq<Column>)
    ensures KnownFkLines([c] + cs) == [if c.name == "todo_id" then TodoFkLine else UserFkLine] + KnownFkLines(cs)
  {
  }

  lemma PresentLinesCons(o: Option<string>, os: seq<Option<string>>)
    ensures PresentLines([o] + os) == (if o.Some? then [o.value] else []) + PresentLines(os)
  {
    assert ([o] + os)[1..] == os;
  }

  /** Every foreign-key column is one of the two fixed lines, and there
      are as many as integer `todo_id` and `user_id` fields. */
  lemma ForeignKeyColumnsFixed(fields: seq<Column>)
    ensures |FkColumns(fields)| == |Filter(fields, KnownFk)|
    ensures forall line :: line in FkColumns(fields) ==> line == TodoFkLine || line == UserFkLine
  {
    ForeignKeyColumns(fields);
  }

  /** `  <name>: <columnDef>,` */
  function ColumnLine(c: Column): string {
    "  " + c.name + ": " + SchemaColumn(c) + ","
  }

  function ColumnLines(fields: seq<Column>): (r: seq<string>)
    ensures |r| == |fields|
    ensures forall k :: 0 <= k < |r| ==> r[k] == ColumnLine(fields[k])
  {
    seq(|fields|, k requires 0 <= k < |fields| => ColumnLine(fields[k]))
  }

  /** `allColumns`: the column lines, joined and split again, then the
      foreign-key columns. */
  function AllColumns(t: SchemaTable): (r: seq<string>)
    ensures |FkColumns(t.fields)| < |r|
    ensures r[|r| - |FkColumns(t.fields)|..] == FkColumns(t.fields)
  {
    Split(Join(ColumnLines(t.fields), '\n'), '\n') + FkColumns(t.fields)
  }

  /** The `pgTable` definition of one table. */
  function TableDefinition(t: SchemaTable): (r: string)
    ensures StartsWith(r, "export const " + t.name + " = pgTable('" + t.name + "', {\n")
    ensures EndsWith(r, "\n});")
  {
    var head := "export const " + t.name + " = pgTable('" + t.name + "', {\n";
    var columns := Join(AllColumns(t), '\n');
    Framed(head, columns, "\n});");
    head + columns + "\n});"
  }

  /** A column line starts with its name as a key. */
  lemma ColumnLineKey(fields: seq<Column>, k: nat)
    requires k < |fields|
    ensures StartsWith(ColumnLines(fields)[k], "  " + fields[k].name + ": ")
  {
    var c := fields[k];
    StartsWithAppend("  " + c.name + ": ", SchemaColumn(c), ",");
  }

  lemma TodoFkLineKey()
    ensures StartsWith(TodoFkLine, TodoIdKey)
  {
  }

  /** An integer `todo_id` field gets the `todo_id` foreign-key column. */
  lemma TodoFkListed(fields: seq<Column>, k: nat)
    requires k < |fields|
    requires fields[k].typeName == "integer" && fields[k].name == "todo_id"
    ensures exists m :: 0 <= m < |FkColumns(fields)| && FkColumns(fields)[m] == TodoFkLine
  {
    ForeignKeyColumns(fields);
    var known := Filter(fields, KnownFk);
    assert KnownFk(fields[k]);
    assert fields[k] in known;
    var m :| 0 <= m < |known| && known[m] == fields[k];
    assert FkColumns(fields)[m] == TodoFkLine;
  }

  predicate NoLineBreaks(lines: seq<string>) {
    forall k :: 0 <= k < |lines| ==> '\n' !in lines[k]
  }

  /** With line-free column lines, the join and split give the column
      lines back, so a table lists its columns, then its foreign keys. */
  lemma AllColumnsLines(t: SchemaTable)
    requires |t.fields| > 0
    requires NoLineBreaks(ColumnLines(t.fields))
    ensures AllColumns(t) == ColumnLines(t.fields) + FkColumns(t.fields)
  {
    SplitJoin(ColumnLines(t.fields), '\n');
  }

  /** An integer `todo_id` field is listed twice: once as its own column
      and once as the foreign-key column, both under the key `todo_id`. */
  lemma TodoIdListedTwice(t: SchemaTable, k: nat)
    requires k < |t.fields|
    requires NoLineBreaks(ColumnLines(t.fields))
    requires t.fields[k].typeName == "integer" && t.fields[k].name == "todo_id"
    ensures exists i, j ::
      0 <= i < j < |AllColumns(t)| && StartsWith(AllColumns(t)[i], TodoIdKey) && StartsWith(AllColumns(t)[j], TodoIdKey)
  {
    AllColumnsLines(t);
    TodoFkListed(t.fields, k);
    var lines := ColumnLines(t.fields);
    var fks := FkColumns(t.fields);
    var m :| 0 <= m < |fks| && fks[m] == TodoFkLine;
    TodoIdColumnKey(t.fields, k);
    TodoFkLineKey();
    KeyedTwice(lines, fks, k, m, TodoIdKey);
  }

  /** A key that starts a line of each of two lists starts two lines of
      their concatenation. */
  lemma KeyedTwice(lines: seq<string>, fks: seq<string>, k: nat, m: nat, key: string)
    requires k < |lines| && m < |fks|
    requires StartsWith(lines[k], key) && StartsWith(fks[m], key)
    ensures exists i, j ::
      0 <= i < j < |lines + fks| && StartsWith((lines + fks)[i], key) && StartsWith((lines + fks)[j], key)
  {
    var all := lines + fks;
    assert all[k] == lines[k] && all[|lines| + m] == fks[m];
    assert StartsWith(all[k], key) && StartsWith(all[|lines| + m], key);
  }

  /** The column line of a `todo_id` field starts with its key. */
  lemma TodoIdColumnKey(fields: seq<Column>, k: nat)
    requires k < |fields| && fields[k].name == "todo_id"
    ensures StartsWith(ColumnLines(fields)[k], TodoIdKey)
  {
    ColumnLineKey(fields, k);
  }
}
