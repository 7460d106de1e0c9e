/** What the code generators read from a parsed DBML schema, and the rules
    the DBML generators share: the TypeScript type of a DBML type, the
    PascalCase name of a table, the split of a table's fields into required
    and optional create fields, and the code of a table's relations block. The DBML parser
    itself is not part of this model; its output is taken as these
    records. */
module Dbml {
  import opened Wrappers
  import opened Strings
  import opened JsCollections

  /** `dbdefault.value`: a string (also `'now()'`), a boolean, a number, or
      an object given together with its `JSON.stringify` text. */
  datatype DefaultValue = DefString(s: string) | DefBool(b: bool) | DefNumber(n: int) | DefObject(json: string)

  /** A parsed field: `type.type_name` (with any arguments, as in
      `varchar(256)`), `type.args`, and the `pk`, `not_null` and `dbdefault`
      settings. The type name is taken to be present; for the types
      generator an empty one maps like an unknown one. */
  datatype Field = Field(name: string, typeName: string, args: Option<string>,
                         pk: bool, notNull: bool, dbdefault: Option<DefaultValue>)

  datatype Table = Table(name: string, fields: seq<Field>)

  /** One end of a `Ref`: its table name (possibly missing) and its
      field names. */
  datatype Endpoint = Endpoint(tableName: Nullable<string>, fieldNames: seq<string>)

  datatype Ref = Ref(from: Endpoint, to: Endpoint)

  /** Whether a table name is truthy in JavaScript. */
  predicate HasTable(e: Endpoint) {
    e.tableName.Present? && e.tableName.value != ""
  }

  /** A possibly missing string as a template literal prints it. */
  function NullableText(s: Nullable<string>): string {
    match s
    case Undefined => "undefined"
    case Null => "null"
    case Present(v) => v
  }

  /** `fieldNames[0]` as a template literal prints it. */
  function FirstFieldText(names: seq<string>): string {
    if |names| > 0 then names[0] else "undefined"
  }

  /** `tsTypeMapping[t]`: the same eleven entries in both generators. */
  function TsTypeMapping(t: string): (r: Option<string>)
    ensures r.Some? <==> t in ["serial", "integer", "int", "text", "varchar", "date", "timestamp",
                                 "boolean", "bool", "jsonb", "json"]
    ensures r.Some? ==> r.value in ["number", "string", "boolean", "Record<string, any>"]
  {
    if t == "serial" || t == "integer" || t == "int" then Some("number")
    else if t == "text" || t == "varchar" || t == "date" || t == "timestamp" then Some("string")
    else if t == "boolean" || t == "bool" then Some("boolean")
    else if t == "jsonb" || t == "json" then Some("Record<string, any>")
    else None
  }

  /** `word.charAt(0).toUpperCase() + word.slice(1)` for every word. */
  function CapitalizeAll(words: seq<string>): (r: seq<string>)
    ensures |r| == |words|
    ensures forall k :: 0 <= k < |r| ==> r[k] == Capitalize(words[k])
  {
    seq(|words|, k requires 0 <= k < |words| => Capitalize(words[k]))
  }

  /** `name.split('_').map(capitalise).join('')`. */
  function PascalCase(name: string): (r: string)
    ensures '_' !in r
  {
    var caps := CapitalizeAll(Split(name, '_'));
    CapsWithout(Split(name, '_'), '_');
    ConcatWithout(caps, '_');
    Concat(caps)
  }

  /** Capitalising words keeps them free of a character that is not an
      upper-case letter, since only the first character of each changes,
      and only to an upper-case letter. */
  lemma CapsWithout(words: seq<string>, c: char)
    requires !('A' <= c <= 'Z')
    requires forall k :: 0 <= k < |words| ==> c !in words[k]
    ensures forall k :: 0 <= k < |CapitalizeAll(words)| ==> c !in CapitalizeAll(words)[k]
  {
    var caps := CapitalizeAll(words);
    forall k | 0 <= k < |caps|
      ensures c !in caps[k]
    {
      forall i | 0 <= i < |caps[k]|
        ensures caps[k][i] != c
      {
        if i > 0 {
          assert caps[k][i] == words[k][i];
        }
      }
    }
  }

  /** A name without '_' is one word: it is only capitalised. */
  lemma PascalCaseWord(w: string)
    requires '_' !in w
    ensures PascalCase(w) == Capitalize(w)
  {
    SplitNoSeparator(w, '_');
    var caps := CapitalizeAll(Split(w, '_'));
    assert caps == [Capitalize(w)];
    assert caps[1..] == [];
    assert Concat(caps) == Capitalize(w) + Concat(caps[1..]);
  }

  /** The first word of a snake_case name is capitalised and the rest is
      converted on its own. */
  lemma PascalCaseStep(a: string, b: string)
    requires '_' !in a
    ensures PascalCase(a + "_" + b) == Capitalize(a) + PascalCase(b)
  {
    SplitAtFirst(a, '_', b);
    var ws := Split(b, '_');
    assert CapitalizeAll([a] + ws) == [Capitalize(a)] + CapitalizeAll(ws);
  }

  lemma {:induction false} ConcatWithout(parts: seq<string>, c: char)
    requires forall k :: 0 <= k < |parts| ==> c !in parts[k]
    ensures c !in Concat(parts)
    decreases |parts|
  {
    if |parts| > 0 {
      ConcatWithout(parts[1..], c);
    }
  }

  /** A converted name holds no '_', since every separator is dropped,
      and no other character that is not an upper-case letter and was
      not in the name already. */
  lemma PascalCaseWithout(name: string, c: char)
    requires c == '_' || (c !in name && !('A' <= c <= 'Z'))
    ensures c !in PascalCase(name)
  {
    var words := Split(name, '_');
    var caps := CapitalizeAll(words);
    if c != '_' {
      JoinSplit(name, '_');
      forall k | 0 <= k < |words|
        ensures c !in words[k]
      {
        JoinHolds(words, '_', k);
      }
    }
    CapsWithout(words, c);
    ConcatWithout(caps, c);
  }

  /** The table names of this schema and their converted forms. */
  lemma PascalCaseTodos()
    ensures PascalCase("todos") == "Todos"
  {
    CapitalizedWord("todos", 'T', "Todos");
  }

  lemma PascalCaseAuditLogs()
    ensures PascalCase("audit_logs") == "AuditLogs"
  {
    TwoWordName("audit", "logs", "Audit", "Logs", "audit_logs", "AuditLogs");
  }

  lemma PascalCaseUserApps()
    ensures PascalCase("user_apps") == "UserApps"
  {
    TwoWordName("user", "apps", "User", "Apps", "user_apps", "UserApps");
  }

  lemma PascalCaseUsers()
    ensures PascalCase("users") == "Users"
  {
    CapitalizedWord("users", 'U', "Users");
  }

  lemma PascalCaseUserRoles()
    ensures PascalCase("user_roles") == "UserRoles"
  {
    TwoWordName("user", "roles", "User", "Roles", "user_roles", "UserRoles");
  }

  /** A name of two words converts to the two capitalised words. */
  lemma TwoWordName(a: string, b: string, ca: string, cb: string, name: string, r: string)
    requires |a| > 0 && '_' !in a && ca == [UpperChar(a[0])] + a[1..]
    requires |b| > 0 && '_' !in b && cb == [UpperChar(b[0])] + b[1..]
    requires name == a + "_" + b && r == ca + cb
    ensures PascalCase(name) == r
  {
    PascalCaseStep(a, b);
    PascalCaseWord(b);
  }

  lemma CapitalizedWord(w: string, u: char, c: string)
    requires |w| > 0 && '_' !in w && u == UpperChar(w[0]) && c == [u] + w[1..]
    ensures PascalCase(w) == c
  {
    PascalCaseWord(w);
  }

  lemma SnakeName(a: string, u: char, ca: string, b: string, name: string)
    requires |a| > 0 && '_' !in a && u == UpperChar(a[0]) && ca == [u] + a[1..]
    requires name == a + "_" + b
    ensures PascalCase(name) == ca + PascalCase(b)
  {
    PascalCaseStep(a, b);
  }

  /** A field the create type requires: not a key, not nullable, no default. */
  predicate CreateRequired(f: Field) {
    !f.pk && f.notNull && f.dbdefault.None?
  }

  /** A field the create type lists as optional: not a key, and nullable or
      defaulted. */
  predicate CreateOptional(f: Field) {
    !f.pk && (!f.notNull || f.dbdefault.Some?)
  }

  /** The required and the optional create fields of a table split its
      non-key fields: each non-key field lands in exactly one of them, in
      table order, and no key field lands in either. */
  lemma CreateFieldsPartition(fields: seq<Field>)
    ensures forall f :: f in fields && !f.pk ==> CreateRequired(f) != CreateOptional(f)
    ensures forall f :: f in Filter(fields, CreateRequired) + Filter(fields, CreateOptional) <==> f in fields && !f.pk
    ensures |Filter(fields, CreateRequired)| + |Filter(fields, CreateOptional)| ==
            |Filter(fields, (f: Field) => !f.pk)|
  {
    FilterSplit(fields, CreateRequired, CreateOptional, (f: Field) => !f.pk);
  }

  /** An entry of a table's relations: 'one' towards a referenced table,
      'many' towards a referencing one. */
  datatype Relation = One(name: string, table: string, field: string, reference: string) | Many(name: string, table: string)

  /** The code of one relation entry of table `tableName`. */
  function RelationCode(tableName: string, rel: Relation): string {
    match rel
    case Many(name, table) => "  " + name + ": many(" + table + "),"
    case One(name, table, field, reference) =>
      "  " + name + ": one(" + table + ", {\n    fields: [" + tableName + "." + field +
      "],\n    references: [" + table + "." + reference + "],\n  }),"
  }

  function RelationCodes(tableName: string, rels: seq<Relation>): (r: seq<string>)
    ensures |r| == |rels|
    ensures forall k :: 0 <= k < |r| ==> r[k] == RelationCode(tableName, rels[k])
  {
    seq(|rels|, k requires 0 <= k < |rels| => RelationCode(tableName, rels[k]))
  }

  /** `export const <table>Relations = relations(<table>, ...)`. */
  function RelationsBlock(tableName: string, rels: seq<Relation>): (r: string)
    ensures StartsWith(r, "export const " + tableName + "Relations = relations(" + tableName + ", ")
    ensures EndsWith(r, "\n}));")
  {
    var head := "export const " + tableName + "Relations = relations(" + tableName + ", ";
    var codes := "({ one, many }) => ({\n" + Join(RelationCodes(tableName, rels), '\n');
    Framed(head, codes, "\n}));");
    head + codes + "\n}));"
  }
}
