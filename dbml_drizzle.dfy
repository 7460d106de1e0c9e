/** The Drizzle schema generator (`generate-from-dbml.js`): a column
    definition per field, the foreign-key references grouped by table, the
    relations derived from them, and a second set of TypeScript interfaces
    with fixed names for the five known tables. */
module DbmlDrizzle {
  import opened Wrappers
  import opened Strings
  import opened JsCollections
  import opened Dbml
  import DbmlTypes

  /** `typeMapping[t]` of this generator. */
  function DrizzleTypeMapping(t: string): (r: Option<string>)
    ensures r.Some? <==> t in ["serial", "integer", "int", "text", "varchar", "date", "timestamp",
                                 "boolean", "bool", "jsonb", "json"]
  {
    if t == "serial" then Some("serial")
    else if t == "integer" || t == "int" then Some("integer")
    else if t == "text" then Some("text")
    else if t == "varchar" then Some("varchar")
    else if t == "date" then Some("date")
    else if t == "timestamp" then Some("timestamp")
    else if t == "boolean" || t == "bool" then Some("boolean")
    else if t == "jsonb" || t == "json" then Some("jsonb")
    else None
  }

  /** Whether `type.args` is truthy. */
  predicate HasArgs(f: Field) {
    f.args.Some? && f.args.value != ""
  }

  /** The column call before any constraint: `varchar` with a length when
      the type is a varchar with arguments, `text` for a varchar without
      them, otherwise the mapped type, `text` when there is none. */
  function DrizzleBase(f: Field): (r: string)
    ensures StartsWith(Lower(f.typeName), "varchar") && HasArgs(f) ==>
      r == "varchar('" + f.name + "', { length: " + f.args.value + " })"
    ensures StartsWith(Lower(f.typeName), "varchar") && !HasArgs(f) ==> r == "text('" + f.name + "')"
    ensures !StartsWith(Lower(f.typeName), "varchar") && DrizzleTypeMapping(Lower(f.typeName)).None? ==>
      r == "text('" + f.name + "')"
    ensures !StartsWith(Lower(f.typeName), "varchar") && DrizzleTypeMapping(Lower(f.typeName)).Some? ==>
      r == DrizzleTypeMapping(Lower(f.typeName)).value + "('" + f.name + "')"
  {
    var typeName := Lower(f.typeName);
    if StartsWith(typeName, "varchar") then
      if HasArgs(f) then "varchar('" + f.name + "', { length: " + f.args.value + " })"
      else "text('" + f.name + "')"
    else
      var mapped := DrizzleTypeMapping(typeName);
      (if mapped.Some? then mapped.value else "text") + "('" + f.name + "')"
  }

  /** A boolean as a template literal prints it. */
  function BoolText(b: bool): string {
    if b then "true" else "false"
  }

  /** The default-value suffix: `.defaultNow()` for `'now()'`, the raw
      value for booleans and numbers, the JSON text for objects, and a
      quoted string otherwise. */
  function DefaultSuffix(d: Option<DefaultValue>): (r: string)
    ensures r == "" <==> d.None?
    ensures d.Some? ==> StartsWith(r, ".default")
    ensures r == ".defaultNow()" <==> d == Some(DefString("now()"))
    ensures d.Some? && d.value.DefString? && d.value.s != "now()" ==> r == ".default('" + d.value.s + "')"
    ensures d.Some? && d.value.DefBool? ==> r == ".default(" + BoolText(d.value.b) + ")"
    ensures d.Some? && d.value.DefObject? ==> r == ".default(" + d.value.json + ")"
    ensures d.Some? && d.value.DefNumber? ==> r == ".default(" + IntToString(d.value.n) + ")"
  {
    match d
    case None => ""
    case Some(v) =>
      if v == DefString("now()") then ".defaultNow()"
      else
        var text := match v
          case DefBool(b) => BoolText(b)
          case DefObject(json) => json
          case DefString(s) => "'" + s + "'"
          case DefNumber(n) => IntToString(n);
        var r := ".default(" + text + ")";
        assert r[8] == '(';
        r
  }

  /** The constraint and default suffixes after the column call. */
  function ColumnSuffix(pk: bool, notNull: bool, d: Option<DefaultValue>): string {
    (if pk then ".primaryKey()" else "") + (if notNull then ".notNull()" else "") + DefaultSuffix(d)
  }

  /** Reading the suffix from the left: `.primaryKey()` comes first exactly
      for a key, `.notNull()` next exactly when the column is not null. */
  lemma ColumnSuffixShapes(pk: bool, notNull: bool, d: Option<DefaultValue>)
    ensures StartsWith(ColumnSuffix(pk, notNull, d), ".primaryKey()") <==> pk
    ensures var rest := ColumnSuffix(pk, notNull, d)[(if pk then 13 else 0)..];
      StartsWith(rest, ".notNull()") <==> notNull
  {
    DefaultTailShape(d);
    SuffixShapes(pk, notNull, DefaultSuffix(d));
  }

  /** A default suffix is empty or starts with `.d`. */
  lemma DefaultTailShape(d: Option<DefaultValue>)
    ensures DefaultSuffix(d) == "" || (|DefaultSuffix(d)| > 1 && DefaultSuffix(d)[1] == 'd')
  {
    var tail := DefaultSuffix(d);
    if d.Some? {
      assert tail[..8] == ".default";
      assert tail[1] == tail[..8][1];
    }
  }

  /** The key and not-null parts in front of any tail that starts with
      `.d`, or is empty, can be read back from the left. */
  lemma SuffixShapes(pk: bool, notNull: bool, tail: string)
    requires tail == "" || (|tail| > 1 && tail[1] == 'd')
    ensures var suffix := (if pk then ".primaryKey()" else "") + (if notNull then ".notNull()" else "") + tail;
      (StartsWith(suffix, ".primaryKey()") <==> pk) &&
      (StartsWith(suffix[(if pk then 13 else 0)..], ".notNull()") <==> notNull)
  {
    var keyPart := if pk then ".primaryKey()" else "";
    var nullPart := if notNull then ".notNull()" else "";
    DropFirst(keyPart, nullPart, tail);
    assert |keyPart| == (if pk then 13 else 0);
    KeyPartFirst(pk, nullPart, tail);
    NullPartNext(notNull, tail);
  }

  lemma KeyPartFirst(pk: bool, nullPart: string, tail: string)
    requires nullPart == "" || nullPart == ".notNull()"
    requires tail == "" || (|tail| > 1 && tail[1] == 'd')
    ensures StartsWith((if pk then ".primaryKey()" else "") + nullPart + tail, ".primaryKey()") <==> pk
  {
    var keyPart := if pk then ".primaryKey()" else "";
    if pk {
      StartsWithAppend(keyPart, nullPart, tail);
    } else {
      assert keyPart + nullPart + tail == nullPart + tail;
      NoKeyPart(nullPart == ".notNull()", tail);
    }
  }

  /** Without a key, the suffix starts with `.n`, `.d` or nothing. */
  lemma NoKeyPart(notNull: bool, tail: string)
    requires tail == "" || (|tail| > 1 && tail[1] == 'd')
    ensures !StartsWith((if notNull then ".notNull()" else "") + tail, ".primaryKey()")
  {
    var nullPart := if notNull then ".notNull()" else "";
    if notNull {
      assert (nullPart + tail)[1] == 'n';
      DiffersAt(nullPart + tail, ".primaryKey()", 1);
    } else if tail != "" {
      assert nullPart + tail == tail;
      DiffersAt(tail, ".primaryKey()", 1);
    }
  }

  /** After the key part, `.notNull()` comes exactly when it is set. */
  lemma NullPartNext(notNull: bool, tail: string)
    requires tail == "" || (|tail| > 1 && tail[1] == 'd')
    ensures StartsWith((if notNull then ".notNull()" else "") + tail, ".notNull()") <==> notNull
  {
    var nullPart := if notNull then ".notNull()" else "";
    if notNull {
      StartsWithConcat(nullPart, tail);
    } else if tail != "" {
      assert nullPart + tail == tail;
      DiffersAt(tail, ".notNull()", 1);
    }
  }

  /** `generateDrizzleColumn`: the column call, then `.primaryKey()` for a
      key, `.notNull()` for a not-null field or a key, then the default. */
  method GenerateDrizzleColumn(f: Field) returns (columnDef: string)
    ensures columnDef == DrizzleBase(f) + ColumnSuffix(f.pk, f.notNull || f.pk, f.dbdefault)
    ensures StartsWith(columnDef[|DrizzleBase(f)|..], ".primaryKey()") <==> f.pk
    ensures StartsWith(columnDef[|DrizzleBase(f)| + (if f.pk then 13 else 0)..], ".notNull()") <==> f.notNull || f.pk
  {
    columnDef := ColumnCall(f);
    columnDef := AppendSuffix(columnDef, f);
  }

  /** The column call part of `generateDrizzleColumn`. */
  method ColumnCall(f: Field) returns (columnDef: string)
    ensures columnDef == DrizzleBase(f)
  {
    var typeName := Lower(f.typeName);
    var drizzleType := "text";
    if StartsWith(typeName, "varchar") {
      if HasArgs(f) {
        columnDef := "varchar('" + f.name + "', { length: " + f.args.value + " })";
      } else {
        columnDef := "text('" + f.name + "')";
      }
    } else {
      var mapped := DrizzleTypeMapping(typeName);
      drizzleType := if mapped.Some? then mapped.value else "text";
      columnDef := drizzleType + "('" + f.name + "')";
    }
  }

  /** The constraint and default part of `generateDrizzleColumn`. */
  method AppendSuffix(base: string, f: Field) returns (columnDef: string)
    ensures columnDef == base + ColumnSuffix(f.pk, f.notNull || f.pk, f.dbdefault)
    ensures StartsWith(columnDef[|base|..], ".primaryKey()") <==> f.pk
    ensures StartsWith(columnDef[|base| + (if f.pk then 13 else 0)..], ".notNull()") <==> f.notNull || f.pk
  {
    ghost var keyPart := if f.pk then ".primaryKey()" else "";
    ghost var nullPart := if f.notNull || f.pk then ".notNull()" else "";
    columnDef := base;
    if f.pk {
      columnDef := columnDef + ".primaryKey()";
    }
    assert columnDef == base + keyPart;
    if f.notNull || f.pk {
      columnDef := columnDef + ".notNull()";
    }
    assert columnDef == base + keyPart + nullPart;
    columnDef := columnDef + DefaultSuffix(f.dbdefault);
    SuffixAfterBase(base, keyPart, nullPart, DefaultSuffix(f.dbdefault));
    ColumnSuffixShapes(f.pk, f.notNull || f.pk, f.dbdefault);
  }

  lemma SuffixAfterBase(base: string, a: string, b: string, c: string)
    ensures base + a + b + c == base + (a + b + c)
    ensures (base + a + b + c)[|base|..] == a + b + c
  {
  }

  /** One entry of `references`: the source field, the referenced table and
      the referenced field. */
  datatype Reference = Reference(field: string, refTable: string, refField: string)

  /** A ref is kept when both of its endpoints name a table. */
  predicate Linked(r: Ref) {
    HasTable(r.from) && HasTable(r.to)
  }

  function ToReference(r: Ref): Reference
    requires Linked(r)
  {
    Reference(FirstFieldText(r.from.fieldNames), r.to.tableName.value, FirstFieldText(r.to.fieldNames))
  }

  /** The references one table gets, in ref order. */
  function ReferencesOf(refs: seq<Ref>, table: string): seq<Reference>
    decreases |refs|
  {
    if |refs| == 0 then []
    else
      var r := refs[|refs| - 1];
      ReferencesOf(refs[..|refs| - 1], table) +
      (if Linked(r) && r.from.tableName.value == table then [ToReference(r)] else [])
  }

  /** The map `generateReferences` builds, one ref at a time. */
  function ReferencesMap(refs: seq<Ref>): (m: seq<Entry<string, Reference>>)
    ensures DistinctKeys(m)
    decreases |refs|
  {
    if |refs| == 0 then []
    else
      var r := refs[|refs| - 1];
      var m := ReferencesMap(refs[..|refs| - 1]);
      if Linked(r) then Push(m, r.from.tableName.value, ToReference(r)) else m
  }

  /** `generateReferences`. */
  method GenerateReferences(refs: seq<Ref>) returns (references: seq<Entry<string, Reference>>)
    ensures references == ReferencesMap(refs)
  {
    references := [];
    var i := 0;
    while i < |refs|
      invariant 0 <= i <= |refs|
      invariant references == ReferencesMap(refs[..i])
    {
      var ref := refs[i];
      assert refs[..i + 1][..i] == refs[..i];
      if HasTable(ref.from) && HasTable(ref.to) {
        references := Push(references, ref.from.tableName.value, ToReference(ref));
      }
      i := i + 1;
    }
    assert refs[..|refs|] == refs;
  }

  /** Each table's references are the linked refs leaving it, in ref
      order, and only tables with some reference are keys. */
  lemma {:induction false} ReferencesGrouped(refs: seq<Ref>, table: string)
    ensures Get(ReferencesMap(refs), table) == ReferencesOf(refs, table)
    ensures table in Keys(ReferencesMap(refs)) <==> ReferencesOf(refs, table) != []
    decreases |refs|
  {
    if |refs| > 0 {
      ReferencesGrouped(refs[..|refs| - 1], table);
    }
  }

  /** A reference is listed under a table exactly when a linked ref leaves
      that table and yields it. */
  lemma {:induction false} ReferencesOfMembers(refs: seq<Ref>, table: string, x: Reference)
    ensures x in ReferencesOf(refs, table) <==>
      exists r :: r in refs && Linked(r) && r.from.tableName.value == table && ToReference(r) == x
    decreases |refs|
  {
    if |refs| > 0 {
      var init := refs[..|refs| - 1];
      ReferencesOfMembers(init, table, x);
      assert refs == init + [refs[|refs| - 1]];
      assert forall r :: r in refs <==> r in init || r == refs[|refs| - 1];
    }
  }

  /** A reference together with the table it leaves. */
  datatype Link = Link(table: string, ref: Reference)

  function LinksOfEntry(e: Entry<string, Reference>): (r: seq<Link>)
    ensures |r| == |e.values|
    ensures forall k :: 0 <= k < |r| ==> r[k] == Link(e.key, e.values[k])
  {
    seq(|e.values|, k requires 0 <= k < |e.values| => Link(e.key, e.values[k]))
  }

  /** All references of the map, table by table in key order. */
  function Links(references: seq<Entry<string, Reference>>): seq<Link>
    decreases |references|
  {
    if |references| == 0 then []
    else Links(references[..|references| - 1]) + LinksOfEntry(references[|references| - 1])
  }

  /** The relations one table gets: for each link in order, a 'one' entry
      on the table it leaves, then a 'many' entry on the table it names. */
  function RelationsOf(links: seq<Link>, table: string): seq<Relation>
    decreases |links|
  {
    if |links| == 0 then []
    else
      var l := links[|links| - 1];
      RelationsOf(links[..|links| - 1], table) +
      (if l.table == table then [One(l.ref.refTable, l.ref.refTable, l.ref.field, l.ref.refField)] else []) +
      (if l.ref.refTable == table then [Many(l.table, l.table)] else [])
  }

  /** The relations map, one link at a time. */
  function RelationsMap(links: seq<Link>): (m: seq<Entry<string, Relation>>)
    ensures DistinctKeys(m)
    decreases |links|
  {
    if |links| == 0 then []
    else
      var l := links[|links| - 1];
      var m := RelationsMap(links[..|links| - 1]);
      Push(Push(m, l.table, One(l.ref.refTable, l.ref.refTable, l.ref.field, l.ref.refField)), l.ref.refTable, Many(l.table, l.table))
  }

  /** Each table's relations in the map are the ones `RelationsOf` lists. */
  lemma {:induction false} RelationsGrouped(links: seq<Link>, table: string)
    ensures Get(RelationsMap(links), table) == RelationsOf(links, table)
    decreases |links|
  {
    if |links| > 0 {
      var init := links[..|links| - 1];
      var l := links[|links| - 1];
      RelationsGrouped(init, table);
      PushTwice(RelationsMap(init), l.table, One(l.ref.refTable, l.ref.refTable, l.ref.field, l.ref.refField),
        l.ref.refTable, Many(l.table, l.table), table);
    }
  }

  /** Every link adds one 'one' entry on the table it leaves and one 'many'
      entry on the table it names, and nothing else. */
  lemma {:induction false} RelationsCount(links: seq<Link>, table: string)
    ensures |RelationsOf(links, table)| ==
      |Filter(links, (l: Link) => l.table == table)| + |Filter(links, (l: Link) => l.ref.refTable == table)|
    decreases |links|
  {
    if |links| > 0 {
      var init := links[..|links| - 1];
      var l := links[|links| - 1];
      RelationsCount(init, table);
      assert links == init + [l];
      FilterSnocCount(init, l, (l: Link) => l.table == table);
      FilterSnocCount(init, l, (l: Link) => l.ref.refTable == table);
    }
  }

  /** One more link pushes its 'one' and its 'many' entry. */
  lemma RelationsMapSnoc(done: seq<Link>, l: Link)
    ensures RelationsMap(done + [l]) ==
      Push(Push(RelationsMap(done), l.table, One(l.ref.refTable, l.ref.refTable, l.ref.field, l.ref.refField)),
           l.ref.refTable, Many(l.table, l.table))
  {
    assert (done + [l])[..|done|] == done;
  }

  lemma LinksStep(before: seq<Link>, links: seq<Link>, j: nat)
    requires j < |links|
    ensures before + links[..j + 1] == (before + links[..j]) + [links[j]]
  {
    assert links[..j + 1] == links[..j] + [links[j]];
  }

  /** The two pushes of one link. */
  method PushLink(m0: seq<Entry<string, Relation>>, ghost done: seq<Link>, tableName: string, ref: Reference)
    returns (m: seq<Entry<string, Relation>>)
    requires m0 == RelationsMap(done)
    ensures m == RelationsMap(done + [Link(tableName, ref)])
  {
    RelationsMapSnoc(done, Link(tableName, ref));
    m := Push(m0, tableName, One(ref.refTable, ref.refTable, ref.field, ref.refField));
    m := Push(m, ref.refTable, Many(tableName, tableName));
  }

  /** One more map entry adds its links at the end. */
  lemma LinksSnoc(references: seq<Entry<string, Reference>>, i: nat)
    requires i < |references|
    ensures Links(references[..i + 1]) == Links(references[..i]) + LinksOfEntry(references[i])
  {
    assert references[..i + 1][..i] == references[..i];
  }

  /** `generateRelations`: fills the relations map from the references,
      then emits one block per table of the map, in key order. */
  method GenerateRelations(references: seq<Entry<string, Reference>>) returns (relations: seq<string>)
    ensures var m := RelationsMap(Links(references));
      |relations| == |m| && forall k :: 0 <= k < |m| ==> relations[k] == RelationsBlock(m[k].key, m[k].values)
  {
    var relationsMap: seq<Entry<string, Relation>> := [];
    var i := 0;
    while i < |references|
      invariant 0 <= i <= |references|
      invariant relationsMap == RelationsMap(Links(references[..i]))
    {
      relationsMap := AddEntryRelations(relationsMap, Links(references[..i]), references[i]);
      LinksSnoc(references, i);
      i := i + 1;
    }
    assert references[..|references|] == references;
    relations := RenderRelations(relationsMap);
  }

  /** The `relationsMap.forEach` of `generateRelations`: one block per
      table, in key order. */
  method RenderRelations(relationsMap: seq<Entry<string, Relation>>) returns (relations: seq<string>)
    ensures |relations| == |relationsMap|
    ensures forall k :: 0 <= k < |relationsMap| ==>
      relations[k] == RelationsBlock(relationsMap[k].key, relationsMap[k].values)
  {
    relations := [];
    var k := 0;
    while k < |relationsMap|
      invariant 0 <= k <= |relationsMap|
      invariant |relations| == k
      invariant forall t :: 0 <= t < k ==> relations[t] == RelationsBlock(relationsMap[t].key, relationsMap[t].values)
    {
      relations := relations + [RelationsBlock(relationsMap[k].key, relationsMap[k].values)];
      k := k + 1;
    }
  }

  /** The inner `refs.forEach` of `generateRelations`: the links of one
      table, pushed in order. */
  method AddEntryRelations(relationsMap0: seq<Entry<string, Relation>>, ghost before: seq<Link>,
                           entry: Entry<string, Reference>) returns (relationsMap: seq<Entry<string, Relation>>)
    requires relationsMap0 == RelationsMap(before)
    ensures relationsMap == RelationsMap(before + LinksOfEntry(entry))
  {
    var tableName := entry.key;
    var refs := entry.values;
    ghost var entryLinks := LinksOfEntry(entry);
    relationsMap := relationsMap0;
    assert before + entryLinks[..0] == before;
    var j := 0;
    while j < |refs|
      invariant 0 <= j <= |refs|
      invariant relationsMap == RelationsMap(before + entryLinks[..j])
    {
      var ref := refs[j];
      ghost var done := before + entryLinks[..j];
      ghost var l := Link(tableName, ref);
      LinksStep(before, entryLinks, j);
      assert entryLinks[j] == l;
      relationsMap := PushLink(relationsMap, done, tableName, ref);
      j := j + 1;
    }
    assert entryLinks[..|refs|] == entryLinks;
  }

  /** The entity name of a table: fixed for the five known tables,
      PascalCase otherwise. */
  function EntityName(tableName: string): (r: string)
    ensures tableName == "todos" ==> r == "Todo"
    ensures tableName == "audit_logs" ==> r == "AuditLog"
    ensures tableName == "users" ==> r == "User"
    ensures tableName == "user_apps" ==> r == "UserApp"
    ensures tableName == "user_roles" ==> r == "UserRole"
    ensures tableName !in ["todos", "audit_logs", "users", "user_apps", "user_roles"] ==> r == PascalCase(tableName)
  {
    if tableName == "todos" then "Todo"
    else if tableName == "audit_logs" then "AuditLog"
    else if tableName == "users" then "User"
    else if tableName == "user_apps" then "UserApp"
    else if tableName == "user_roles" then "UserRole"
    else PascalCase(tableName)
  }

  /** The two generators name the known tables differently: this one uses
      the singular, the types generator converts the plural table name. */
  lemma EntityNamesDifferFromConvention()
    ensures EntityName("todos") == "Todo"
    ensures DbmlTypes.BaseTypeName("todos") == "Todos"
    ensures DbmlTypes.TypeName("todos") == "TodosType"
  {
    PascalCaseTodos();
    assert DbmlTypes.BaseTypeName("todos") == PascalCase("todos");
  }

  /** The TypeScript type of a field here: 'string' for any varchar,
      otherwise the mapping of the whole lower-cased type name. */
  function InterfaceTsType(f: Field): (r: string)
    ensures r in ["number", "string", "boolean", "Record<string, any>"]
  {
    var fieldTypeName := Lower(f.typeName);
    if StartsWith(fieldTypeName, "varchar") then "string"
    else
      var mapped := TsTypeMapping(fieldTypeName);
      if mapped.Some? then mapped.value else "string"
  }

  /** This generator does not cut a type at its argument list, so an
      `int(11)` column is a string here and a number in the types
      generator. */
  lemma ArgumentListsDisagree()
    ensures InterfaceTsType(Field("n", "int(11)", Some("11"), false, true, None)) == "string"
    ensures DbmlTypes.FieldTsType(Field("n", "int(11)", Some("11"), false, true, None)) == "number"
  {
    ArgumentListHere();
    ArgumentListThere();
  }

  lemma ArgumentListHere()
    ensures InterfaceTsType(Field("n", "int(11)", Some("11"), false, true, None)) == "string"
  {
    LowerAscii("int(11)");
    DiffersAt("int(11)", "varchar", 0);
    Int11Unmapped();
  }

  lemma Int11Unmapped()
    ensures TsTypeMapping("int(11)").None?
  {
    var t := "int(11)";
    assert t[3] == '(' && |t| == 7;
    assert t != "integer" && t != "varchar" && t != "boolean" by {
      assert "integer"[3] == 'e' && "varchar"[3] == 'c' && "boolean"[3] == 'l';
    }
  }

  lemma ArgumentListThere()
    ensures DbmlTypes.FieldTsType(Field("n", "int(11)", Some("11"), false, true, None)) == "number"
  {
    assert "int" + "(" + "11" + ")" == "int(11)";
    DbmlTypes.BaseTypeIgnoresArguments("int", "11");
    LowerAscii("int");
    assert IndexOf("int", '(') == 3;
    assert DbmlTypes.BaseType("int") == "int";
  }

  /** Lower-casing text without upper-case letters changes nothing. */
  lemma LowerAscii(s: string)
    requires forall k :: 0 <= k < |s| ==> !('A' <= s[k] <= 'Z')
    ensures Lower(s) == s
  {
  }

  /** One line of `generateTSInterface`, optional exactly when the field is
      neither `not_null` nor a key. */
  function TsInterfaceLine(f: Field): (r: string)
    ensures EndsWith(r, " | null;") <==> !f.notNull && !f.pk
    ensures StartsWith(r, "  " + f.name)
  {
    DbmlTypes.LineShapes(f.name, InterfaceTsType(f));
    var isOptional := !f.notNull && !f.pk;
    if isOptional then DbmlTypes.OptionalLine(f.name, InterfaceTsType(f))
    else DbmlTypes.RequiredLine(f.name, InterfaceTsType(f))
  }

  function TsInterfaceLines(fields: seq<Field>): (r: seq<string>)
    ensures |r| == |fields|
    ensures forall k :: 0 <= k < |r| ==> r[k] == TsInterfaceLine(fields[k])
  {
    seq(|fields|, k requires 0 <= k < |fields| => TsInterfaceLine(fields[k]))
  }

  /** `generateTSInterface`. */
  function GenerateTsInterface(table: Table): (r: string)
    ensures StartsWith(r, DbmlTypes.InterfaceHeader("", EntityName(table.name) + "Type") + "\n")
    ensures EndsWith(r, "\n}")
  {
    var head := DbmlTypes.InterfaceHeader("", EntityName(table.name) + "Type") + "\n";
    var lines := Join(TsInterfaceLines(table.fields), '\n');
    Framed(head, lines, "\n}");
    head + lines + "\n}"
  }

  /** Read back line by line, an interface is headed by the table's entity
      name, lists one line per field in table order (a lone empty line for
      a table without fields) and closes with "}", provided no name holds a
      line break. */
  lemma TsInterfaceLinesInOrder(table: Table)
    requires '\n' !in table.name
    requires forall f :: f in table.fields ==> '\n' !in f.name
    ensures Split(GenerateTsInterface(table), '\n') ==
      [DbmlTypes.InterfaceHeader("", EntityName(table.name) + "Type")] +
      (if |table.fields| == 0 then [""] else TsInterfaceLines(table.fields)) + ["}"]
  {
    var header := DbmlTypes.InterfaceHeader("", EntityName(table.name) + "Type");
    TsInterfaceLinesWithoutBreak(table.fields);
    EntityNameWithoutBreak(table.name);
    DbmlTypes.HeaderWithoutBreak("", EntityName(table.name) + "Type");
    DbmlTypes.WrappedLines(header, TsInterfaceLines(table.fields), "}");
    DbmlTypes.Regrouped(header, Join(TsInterfaceLines(table.fields), '\n'));
  }

  lemma EntityNameWithoutBreak(tableName: string)
    requires '\n' !in tableName
    ensures '\n' !in "" + (EntityName(tableName) + "Type")
  {
    if tableName !in ["todos", "audit_logs", "users", "user_apps", "user_roles"] {
      PascalCaseWithout(tableName, '\n');
    }
    var s := "" + (EntityName(tableName) + "Type");
    assert s == EntityName(tableName) + "Type";
  }

  /** The todos table, as a case of the above: headed by `TodoType`. */
  lemma TsInterfaceOfTodos(fields: seq<Field>)
    requires forall f :: f in fields ==> '\n' !in f.name
    ensures Split(GenerateTsInterface(Table("todos", fields)), '\n') ==
      ["export interface TodoType {"] + (if |fields| == 0 then [""] else TsInterfaceLines(fields)) + ["}"]
  {
    TsInterfaceLinesInOrder(Table("todos", fields));
    TodoTypeHeader();
  }

  lemma TodoTypeHeader()
    ensures DbmlTypes.InterfaceHeader("", EntityName("todos") + "Type") == "export interface TodoType {"
    ensures '\n' !in DbmlTypes.InterfaceHeader("", EntityName("todos") + "Type")
  {
  }

  lemma TsInterfaceLinesWithoutBreak(fields: seq<Field>)
    requires forall f :: f in fields ==> '\n' !in f.name
    ensures forall k :: 0 <= k < |TsInterfaceLines(fields)| ==> '\n' !in TsInterfaceLines(fields)[k]
  {
    var lines := TsInterfaceLines(fields);
    forall k | 0 <= k < |lines| ensures '\n' !in lines[k] {
      assert fields[k] in fields;
      TsInterfaceLineWithoutBreak(fields[k]);
    }
  }

  lemma TsInterfaceLineWithoutBreak(f: Field)
    requires '\n' !in f.name
    ensures '\n' !in TsInterfaceLine(f)
  {
    var ts := InterfaceTsType(f);
    assert '\n' !in ts;
    assert DbmlTypes.RequiredLine(f.name, ts) == "  " + f.name + ": " + ts + ";";
    assert DbmlTypes.OptionalLine(f.name, ts) == "  " + f.name + "?: " + ts + " | null;";
  }

  /** The required create lines: one per required field, in order. */
  function CreateRequiredLines(fields: seq<Field>): (r: seq<string>)
    ensures |r| == |Filter(fields, CreateRequired)|
    ensures forall k :: 0 <= k < |r| ==>
      r[k] == DbmlTypes.RequiredLine(Filter(fields, CreateRequired)[k].name, InterfaceTsType(Filter(fields, CreateRequired)[k]))
  {
    var fs := Filter(fields, CreateRequired);
    seq(|fs|, k requires 0 <= k < |fs| => DbmlTypes.RequiredLine(fs[k].name, InterfaceTsType(fs[k])))
  }

  /** The optional create lines: one per optional field, in order. */
  function CreateOptionalLines(fields: seq<Field>): (r: seq<string>)
    ensures |r| == |Filter(fields, CreateOptional)|
    ensures forall k :: 0 <= k < |r| ==>
      r[k] == DbmlTypes.OptionalLine(Filter(fields, CreateOptional)[k].name, InterfaceTsType(Filter(fields, CreateOptional)[k]))
  {
    var fs := Filter(fields, CreateOptional);
    seq(|fs|, k requires 0 <= k < |fs| => DbmlTypes.OptionalLine(fs[k].name, InterfaceTsType(fs[k])))
  }

  /** The update lines after the key: every non-key field, optional. */
  function UpdateFieldLines(fields: seq<Field>): (r: seq<string>)
    ensures |r| == |Filter(fields, (f: Field) => !f.pk)|
    ensures forall k :: 0 <= k < |r| ==>
      r[k] == DbmlTypes.OptionalLine(Filter(fields, (f: Field) => !f.pk)[k].name,
                                     InterfaceTsType(Filter(fields, (f: Field) => !f.pk)[k]))
  {
    var fs := Filter(fields, (f: Field) => !f.pk);
    seq(|fs|, k requires 0 <= k < |fs| => DbmlTypes.OptionalLine(fs[k].name, InterfaceTsType(fs[k])))
  }

  /** The type of the key in the update interface: 'number' when the key's
      type is not mapped. */
  function KeyTsType(f: Field): string {
    var t := Lower(f.typeName);
    if StartsWith(t, "varchar") then "string"
    else
      var mapped := TsTypeMapping(t);
      if mapped.Some? then mapped.value else "number"
  }

  /** Some field of the table is not a key. */
  predicate HasNonKey(fields: seq<Field>) {
    exists f :: f in fields && !f.pk
  }

  lemma NonKeyFilter(fields: seq<Field>)
    ensures HasNonKey(fields) <==> |Filter(fields, (f: Field) => !f.pk)| > 0
  {
    var fs := Filter(fields, (f: Field) => !f.pk);
    if HasNonKey(fields) {
      var f :| f in fields && !f.pk;
      assert f in fs;
    }
    if |fs| > 0 {
      assert fs[0] in fs;
    }
  }

  /** `table.fields.find(field => field.pk)` finds a field exactly when
      some field is a key. */
  lemma FirstKey(fields: seq<Field>)
    ensures FindIndex(fields, (f: Field) => f.pk).Some? <==> exists f :: f in fields && f.pk
  {
    if FindIndex(fields, (f: Field) => f.pk).None? {
      forall f | f in fields ensures !f.pk {
        var k :| 0 <= k < |fields| && fields[k] == f;
      }
    } else {
      assert fields[FindIndex(fields, (f: Field) => f.pk).value] in fields;
    }
  }

  /** The create interface, or "" when it has no line. */
  function CreateType(baseTypeName: string, createFields: seq<string>, optionalFields: seq<string>): (r: string)
    ensures r != "" <==> |createFields| > 0 || |optionalFields| > 0
    ensures r != "" ==>
      r == DbmlTypes.InterfaceHeader("Create", baseTypeName + "Type") + "\n" +
           Join(createFields + optionalFields, '\n') + "\n" + "}"
  {
    if |createFields| > 0 || |optionalFields| > 0 then
      var header := DbmlTypes.InterfaceHeader("Create", baseTypeName + "Type");
      assert |header| > 0;
      header + "\n" + Join(createFields + optionalFields, '\n') + "\n" + "}"
    else ""
  }

  /** The update interface, or "" without a key or without other fields. */
  function UpdateType(baseTypeName: string, pk: Option<Field>, updateFields: seq<string>): (r: string)
    ensures r != "" <==> |updateFields| > 0 && pk.Some?
    ensures r != "" ==>
      r == DbmlTypes.InterfaceHeader("Update", baseTypeName + "Type") + "\n" +
           Join([DbmlTypes.RequiredLine(pk.value.name, KeyTsType(pk.value))] + updateFields, '\n') + "\n" + "}"
  {
    if |updateFields| > 0 && pk.Some? then
      var keyLine := DbmlTypes.RequiredLine(pk.value.name, KeyTsType(pk.value));
      var header := DbmlTypes.InterfaceHeader("Update", baseTypeName + "Type");
      JoinAppend([keyLine], updateFields, '\n');
      assert |header| > 0;
      header + "\n" + keyLine + "\n" + Join(updateFields, '\n') + "\n" + "}"
    else ""
  }

  /** The key `find` picks, if any. */
  function KeyField(fields: seq<Field>): (r: Option<Field>)
    ensures r.Some? <==> exists f :: f in fields && f.pk
    ensures r.Some? ==> r.value in fields && r.value.pk
    ensures r.Some? ==>
      exists i :: 0 <= i < |fields| && fields[i] == r.value && forall j :: 0 <= j < i ==> !fields[j].pk
  {
    FirstKey(fields);
    var i := FindIndex(fields, (f: Field) => f.pk);
    if i.Some? then Some(fields[i.value]) else None
  }

  /** `generateCRUDTypes` of this generator: a create interface exactly
      when the table has a non-key field, an update interface exactly when
      it has a key as well; an absent interface is the empty string. */
  function GenerateCrudTypes(table: Table): (r: (string, string))
    ensures r.0 != "" <==> HasNonKey(table.fields)
    ensures r.1 != "" <==> HasNonKey(table.fields) && exists f :: f in table.fields && f.pk
    ensures r.0 == CreateType(EntityName(table.name), CreateRequiredLines(table.fields), CreateOptionalLines(table.fields))
    ensures r.1 == UpdateType(EntityName(table.name), KeyField(table.fields), UpdateFieldLines(table.fields))
  {
    var baseTypeName := EntityName(table.name);
    CreateFieldsPartition(table.fields);
    NonKeyFilter(table.fields);
    FirstKey(table.fields);
    (CreateType(baseTypeName, CreateRequiredLines(table.fields), CreateOptionalLines(table.fields)),
     UpdateType(baseTypeName, KeyField(table.fields), UpdateFieldLines(table.fields)))
  }
}
