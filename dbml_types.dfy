/** The TypeScript types generator (`generate-types-from-dbml.js`): one
    interface per table, a create and an update interface per table, and
    the type aliases. Names follow the convention `snake_case` table name
    to PascalCase. */
module DbmlTypes {
  import opened Wrappers
  import opened Strings
  import opened JsCollections
  import opened Dbml

  /** `getBaseTypeName`: the PascalCase form of the table name. */
  function BaseTypeName(tableName: string): (r: string)
    ensures '_' !in r
    ensures '_' !in tableName ==> r == Capitalize(tableName)
  {
    PascalCaseWithout(tableName, '_');
    if '_' !in tableName then PascalCaseWord(tableName); PascalCase(tableName)
    else PascalCase(tableName)
  }

  /** `getTypeName`: computed on its own, and always the base name with
      `Type` appended. */
  function TypeName(tableName: string): (r: string)
    ensures r == BaseTypeName(tableName) + "Type"
  {
    Concat(CapitalizeAll(Split(tableName, '_'))) + "Type"
  }

  /** `String(dbmlType).toLowerCase().split('(')[0]`. */
  function BaseType(typeName: string): (r: string)
    ensures '(' !in r
    ensures r == Lower(typeName)[..IndexOf(Lower(typeName), '(')]
  {
    var lower := Lower(typeName);
    SplitFirstPart(lower, '(');
    if '(' !in lower then SplitNoSeparator(lower, '('); Split(lower, '(')[0]
    else Split(lower, '(')[0]
  }

  /** `getFieldTsType`: the mapped type of the base type, 'string' when the
      mapping has none. */
  function FieldTsType(f: Field): (r: string)
    ensures TsTypeMapping(BaseType(f.typeName)).Some? ==> r == TsTypeMapping(BaseType(f.typeName)).value
    ensures TsTypeMapping(BaseType(f.typeName)).None? ==> r == "string"
    ensures r in ["number", "string", "boolean", "Record<string, any>"]
  {
    var mapped := TsTypeMapping(BaseType(f.typeName));
    if mapped.Some? then mapped.value else "string"
  }

  /** Type names that carry an argument list map like the bare name. */
  lemma FieldTsTypeIgnoresArguments(f: Field, args: string)
    requires '(' !in f.typeName
    ensures FieldTsType(f.(typeName := f.typeName + "(" + args + ")")) == FieldTsType(f)
  {
    BaseTypeIgnoresArguments(f.typeName, args);
  }

  lemma BaseTypeIgnoresArguments(t: string, args: string)
    requires '(' !in t
    ensures BaseType(t + "(" + args + ")") == BaseType(t)
  {
    LowerParenthesised(t, args);
    LowerKeepsOut(t, '(');
    PrefixBefore(Lower(t), '(', Lower(args + ")"));
  }

  /** Lower-casing a type with arguments lower-cases its two parts. */
  lemma LowerParenthesised(t: string, args: string)
    ensures Lower(t + "(" + args + ")") == Lower(t) + ['('] + Lower(args + ")")
  {
    assert t + "(" + args + ")" == t + ['('] + (args + ")");
    LowerAround(t, '(', args + ")");
  }

  /** A character that is not a letter stays out of a lower-cased string. */
  lemma LowerKeepsOut(t: string, c: char)
    requires c !in t && !('A' <= c <= 'Z') && !('a' <= c <= 'z')
    ensures c !in Lower(t)
  {
    var lower := Lower(t);
    forall i | 0 <= i < |lower| ensures lower[i] != c {
      assert lower[i] == LowerChar(t[i]);
    }
  }

  /** `` `  ${name}: ${tsType};` `` */
  function RequiredLine(name: string, tsType: string): string {
    "  " + name + ": " + tsType + ";"
  }

  /** `` `  ${name}?: ${tsType} | null;` `` */
  function OptionalLine(name: string, tsType: string): string {
    "  " + name + "?: " + tsType + " | null;"
  }

  /** A line is marked optional by its ` | null;` ending, which no required
      line of a mapped type has; both start with the field name. */
  lemma LineShapes(name: string, tsType: string)
    requires tsType in ["number", "string", "boolean", "Record<string, any>"]
    ensures EndsWith(OptionalLine(name, tsType), " | null;")
    ensures !EndsWith(RequiredLine(name, tsType), " | null;")
    ensures StartsWith(OptionalLine(name, tsType), "  " + name) && StartsWith(RequiredLine(name, tsType), "  " + name)
  {
    var req := RequiredLine(name, tsType);
    var opt := OptionalLine(name, tsType);
    var prefix := "  " + name;
    assert req == prefix + (": " + tsType + ";");
    assert opt == prefix + ("?: " + tsType + " | null;");
    assert opt[|opt| - 8..] == " | null;";
    assert req[|req| - 2] == tsType[|tsType| - 1];
    assert tsType[|tsType| - 1] != 'l';
    assert req[..|prefix|] == prefix && opt[..|prefix|] == prefix;
  }

  /** `isOptional` of an interface field: neither `not_null` nor a key. */
  predicate InterfaceOptional(f: Field) {
    !f.notNull && !f.pk
  }

  /** One line of `generateInterface`: the template with `?` and ` | null`
      added for an optional field. */
  function InterfaceLine(f: Field): (r: string)
    ensures EndsWith(r, " | null;") <==> InterfaceOptional(f)
    ensures StartsWith(r, "  " + f.name)
  {
    LineShapes(f.name, FieldTsType(f));
    var isOptional := !f.notNull && !f.pk;
    if isOptional then OptionalLine(f.name, FieldTsType(f)) else RequiredLine(f.name, FieldTsType(f))
  }

  function InterfaceLines(fields: seq<Field>): (r: seq<string>)
    ensures |r| == |fields|
    ensures forall k :: 0 <= k < |r| ==> r[k] == InterfaceLine(fields[k])
  {
    seq(|fields|, k requires 0 <= k < |fields| => InterfaceLine(fields[k]))
  }

  /** `` `export interface ${typeName} {` `` */
  function InterfaceHeader(prefix: string, name: string): string {
    "export interface " + prefix + name + " {"
  }

  /** `generateInterface`. */
  function GenerateInterface(table: Table): (r: string)
    ensures StartsWith(r, InterfaceHeader("", TypeName(table.name)) + "\n")
    ensures EndsWith(r, "\n}")
  {
    var head := InterfaceHeader("", TypeName(table.name)) + "\n";
    var lines := Join(InterfaceLines(table.fields), '\n');
    Framed(head, lines, "\n}");
    head + lines + "\n}"
  }

  /** Read back line by line, an interface is its header, one line per
      field in table order (a lone empty line for a table without fields),
      and the closing brace, provided no name holds a line break. */
  lemma InterfaceLinesInOrder(table: Table)
    requires '\n' !in table.name
    requires forall f :: f in table.fields ==> '\n' !in f.name
    ensures Split(GenerateInterface(table), '\n') ==
      [InterfaceHeader("", TypeName(table.name))] +
      (if |table.fields| == 0 then [""] else InterfaceLines(table.fields)) + ["}"]
  {
    var header := InterfaceHeader("", TypeName(table.name));
    var lines := InterfaceLines(table.fields);
    forall k | 0 <= k < |lines| ensures '\n' !in lines[k] {
      assert table.fields[k] in table.fields;
      InterfaceLineWithoutBreak(table.fields[k]);
    }
    PascalCaseWithout(table.name, '\n');
    HeaderWithoutBreak("", TypeName(table.name));
    WrappedLines(header, lines, "}");
    Regrouped(header, Join(lines, '\n'));
  }

  /** The template's pieces, grouped as the interface body builds them. */
  lemma Regrouped(header: string, body: string)
    ensures (header + "\n") + body + "\n}" == header + "\n" + body + "\n" + "}"
  {
    assert "\n" + "}" == "\n}";
  }

  lemma HeaderWithoutBreak(prefix: string, name: string)
    requires '\n' !in prefix + name
    ensures '\n' !in InterfaceHeader(prefix, name)
  {
    assert InterfaceHeader(prefix, name) == "export interface " + (prefix + name) + " {";
  }

  /** Lines between a header and a footer, split at line breaks again. */
  lemma WrappedLines(header: string, lines: seq<string>, footer: string)
    requires '\n' !in header && '\n' !in footer
    requires forall k :: 0 <= k < |lines| ==> '\n' !in lines[k]
    ensures Split(header + "\n" + Join(lines, '\n') + "\n" + footer, '\n') ==
      [header] + (if |lines| == 0 then [""] else lines) + [footer]
  {
    var body := if |lines| == 0 then [""] else lines;
    var parts := [header] + body + [footer];
    assert Join(body, '\n') == Join(lines, '\n');
    JoinAppend([header], body, '\n');
    JoinAppend([header] + body, [footer], '\n');
    assert Join(parts, '\n') == header + "\n" + Join(lines, '\n') + "\n" + footer;
    forall k | 0 <= k < |parts| ensures '\n' !in parts[k] {
      if 0 < k < |parts| - 1 {
        assert parts[k] == body[k - 1];
      }
    }
    SplitJoin(parts, '\n');
  }

  lemma InterfaceLineWithoutBreak(f: Field)
    requires '\n' !in f.name
    ensures '\n' !in InterfaceLine(f)
  {
    var ts := FieldTsType(f);
    assert '\n' !in ts;
    assert RequiredLine(f.name, ts) == "  " + f.name + ": " + ts + ";";
    assert OptionalLine(f.name, ts) == "  " + f.name + "?: " + ts + " | null;";
  }

  /** The required create lines: key-less, not nullable, no default. */
  function CreateRequiredLines(fields: seq<Field>): (r: seq<string>)
    ensures |r| == |Filter(fields, CreateRequired)|
    ensures forall k :: 0 <= k < |r| ==>
      r[k] == RequiredLine(Filter(fields, CreateRequired)[k].name, FieldTsType(Filter(fields, CreateRequired)[k]))
  {
    var fs := Filter(fields, CreateRequired);
    seq(|fs|, k requires 0 <= k < |fs| => RequiredLine(fs[k].name, FieldTsType(fs[k])))
  }

  /** The optional create lines: key-less, nullable or defaulted. */
  function CreateOptionalLines(fields: seq<Field>): (r: seq<string>)
    ensures |r| == |Filter(fields, CreateOptional)|
    ensures forall k :: 0 <= k < |r| ==>
      r[k] == OptionalLine(Filter(fields, CreateOptional)[k].name, FieldTsType(Filter(fields, CreateOptional)[k]))
  {
    var fs := Filter(fields, CreateOptional);
    seq(|fs|, k requires 0 <= k < |fs| => OptionalLine(fs[k].name, FieldTsType(fs[k])))
  }

  /** An update line: a key is required, every other field optional. */
  function UpdateLine(f: Field): (r: string)
    ensures EndsWith(r, " | null;") <==> !f.pk
    ensures StartsWith(r, "  " + f.name)
  {
    LineShapes(f.name, FieldTsType(f));
    if f.pk then RequiredLine(f.name, FieldTsType(f)) else OptionalLine(f.name, FieldTsType(f))
  }

  function UpdateLines(fields: seq<Field>): (r: seq<string>)
    ensures |r| == |fields|
    ensures forall k :: 0 <= k < |r| ==> r[k] == UpdateLine(fields[k])
  {
    seq(|fields|, k requires 0 <= k < |fields| => UpdateLine(fields[k]))
  }

  /** The lines of the create interface: the required ones, then the
      optional ones. */
  function CreateLines(fields: seq<Field>): seq<string> {
    CreateRequiredLines(fields) + CreateOptionalLines(fields)
  }

  /** The create interface has one line per non-key field; the required
      ones come first and only the optional ones end in ` | null;`. */
  lemma CreateLinesCoverNonKeyFields(fields: seq<Field>)
    ensures |CreateLines(fields)| == |Filter(fields, (f: Field) => !f.pk)|
    ensures forall k :: 0 <= k < |CreateLines(fields)| ==>
      (EndsWith(CreateLines(fields)[k], " | null;") <==> k >= |Filter(fields, CreateRequired)|)
  {
    CreateFieldsPartition(fields);
    var req := CreateRequiredLines(fields);
    var opt := CreateOptionalLines(fields);
    forall k | 0 <= k < |req + opt|
      ensures EndsWith((req + opt)[k], " | null;") <==> k >= |req|
    {
      if k < |req| {
        var f := Filter(fields, CreateRequired)[k];
        LineShapes(f.name, FieldTsType(f));
      } else {
        var f := Filter(fields, CreateOptional)[k - |req|];
        LineShapes(f.name, FieldTsType(f));
      }
    }
  }

  /** `generateCRUDTypes`: the create and the update interface. The
      separator between required and optional create lines is put only
      when both are present, so the create body is all create lines
      joined. */
  function GenerateCrudTypes(table: Table): (r: (string, string))
    ensures r.0 == InterfaceHeader("Create", BaseTypeName(table.name) + "Type") + "\n" +
                   Join(CreateLines(table.fields), '\n') + "\n" + "}"
    ensures r.1 == InterfaceHeader("Update", BaseTypeName(table.name) + "Type") + "\n" +
                   Join(UpdateLines(table.fields), '\n') + "\n" + "}"
  {
    var baseTypeName := BaseTypeName(table.name);
    var createFields := CreateRequiredLines(table.fields);
    var optionalCreateFields := CreateOptionalLines(table.fields);
    var createBody := Join(createFields, '\n') +
      (if |createFields| > 0 && |optionalCreateFields| > 0 then "\n" else "") + Join(optionalCreateFields, '\n');
    JoinSeparated(createFields, optionalCreateFields, '\n');
    var createInterface := InterfaceHeader("Create", baseTypeName + "Type") + "\n" + createBody + "\n" + "}";
    var updateInterface := InterfaceHeader("Update", baseTypeName + "Type") + "\n" +
      Join(UpdateLines(table.fields), '\n') + "\n" + "}";
    (createInterface, updateInterface)
  }

  /** Putting a separator between two joined lists only when both are
      non-empty is joining their concatenation. */
  lemma JoinSeparated(a: seq<string>, b: seq<string>, c: char)
    ensures Join(a, c) + (if |a| > 0 && |b| > 0 then [c] else "") + Join(b, c) == Join(a + b, c)
  {
    if |a| > 0 && |b| > 0 {
      JoinAppend(a, b, c);
    } else if |a| == 0 {
      assert a + b == b;
    } else {
      assert a + b == a;
    }
  }

  /** `generateTypeAliases`: a header line, then for each table in order
      its base alias and its `New` alias. */
  method GenerateTypeAliases(tables: seq<Table>) returns (aliases: seq<string>)
    ensures aliases == [AliasHeading] + AliasLines(tables)
    ensures |aliases| == 1 + 2 * |tables|
    ensures forall k :: 0 <= k < |tables| ==> aliases[1 + 2 * k] == BaseAlias(tables[k].name)
    ensures forall k :: 0 <= k < |tables| ==> aliases[2 + 2 * k] == NewAlias(tables[k].name)
  {
    aliases := [AliasHeading];
    var i := 0;
    while i < |tables|
      invariant 0 <= i <= |tables|
      invariant aliases == [AliasHeading] + AliasLines(tables[..i])
    {
      assert tables[..i + 1][..i] == tables[..i];
      aliases := aliases + [BaseAliasOf(tables[i]), NewAliasOf(tables[i])];
      i := i + 1;
    }
    assert tables[..|tables|] == tables;
    AliasLinesAt(tables);
  }

  /** The comment line that opens the alias block. */
  const AliasHeading: string := "// Basic type aliases for compatibility"

  /** The two alias lines of every table, in table order. */
  function AliasLines(tables: seq<Table>): seq<string> {
    FlatPairs(tables, BaseAliasOf, NewAliasOf)
  }

  /** `f` and `g` of every element, one element after the other. */
  function FlatPairs<T, U>(xs: seq<T>, f: T -> U, g: T -> U): seq<U> {
    if |xs| == 0 then []
    else FlatPairs(xs[..|xs| - 1], f, g) + [f(xs[|xs| - 1]), g(xs[|xs| - 1])]
  }

  /** Element `k` owns positions `2k` and `2k + 1`. */
  lemma {:induction false} FlatPairsAt<T, U>(xs: seq<T>, f: T -> U, g: T -> U)
    ensures |FlatPairs(xs, f, g)| == 2 * |xs|
    ensures forall k :: 0 <= k < |xs| ==> FlatPairs(xs, f, g)[2 * k] == f(xs[k])
    ensures forall k :: 0 <= k < |xs| ==> FlatPairs(xs, f, g)[2 * k + 1] == g(xs[k])
  {
    if |xs| > 0 {
      var init := xs[..|xs| - 1];
      FlatPairsAt(init, f, g);
      forall k | 0 <= k < |init| ensures init[k] == xs[k] { }
    }
  }

  /** Table `k` owns alias lines `2k` and `2k + 1`. */
  lemma AliasLinesAt(tables: seq<Table>)
    ensures |AliasLines(tables)| == 2 * |tables|
    ensures forall k :: 0 <= k < |tables| ==> AliasLines(tables)[2 * k] == BaseAlias(tables[k].name)
    ensures forall k :: 0 <= k < |tables| ==> AliasLines(tables)[2 * k + 1] == NewAlias(tables[k].name)
  {
    FlatPairsAt(tables, BaseAliasOf, NewAliasOf);
  }

  function BaseAliasOf(table: Table): string { BaseAlias(table.name) }

  function NewAliasOf(table: Table): string { NewAlias(table.name) }

  /** `` `export type ${baseTypeName} = ${typeName};` `` */
  function BaseAlias(tableName: string): string {
    "export type " + BaseTypeName(tableName) + " = " + TypeName(tableName) + ";"
  }

  /** `` `export type New${baseTypeName} = Create${baseTypeName}Type;` `` */
  function NewAlias(tableName: string): string {
    "export type New" + BaseTypeName(tableName) + " = Create" + BaseTypeName(tableName) + "Type;"
  }
}
