/** Schema extraction (`parse_sql_file`): the first CREATE TABLE statement
    of an already parsed statement list, plus the rule arrays of the JSON
    rules document, become one `TableSchema`. */
module Schema {
  import opened Wrappers
  import Json
  import Identifiers

  /** One column of the table: its name, its raw SQL type text and whether it may be NULL. */
  datatype TableColumn = TableColumn(name: string, sqlType: string, isNullable: bool)

  /** The normalized schema handed to the generators. The three rule lists
      stay `None` unless the rules document supplies an array for them. */
  datatype TableSchema = TableSchema(
    tableName: string,
    columns: seq<TableColumn>,
    moduleName: string,
    structName: string,
    createSpecialFields: Option<seq<string>>,
    updateSpecialFields: Option<seq<string>>,
    alwaysIncludeInDto: Option<seq<string>>)

  /** The options of a parsed column definition; only NOT NULL matters here,
      every other option (NULL, DEFAULT, PRIMARY KEY, ...) is `OtherOption`. */
  datatype ColumnOption = NotNull | OtherOption

  /** A parsed column definition: its identifier, the printed data type and its options. */
  datatype ColumnDef = ColumnDef(name: string, dataType: string, options: seq<ColumnOption>)

  /** A parsed CREATE TABLE statement: the printed table name and its columns in declared order. */
  datatype CreateTable = CreateTable(name: string, columns: seq<ColumnDef>)

  /** A parsed SQL statement; every kind other than CREATE TABLE is `OtherStatement`. */
  datatype Statement = CreateTableStatement(table: CreateTable) | OtherStatement

  datatype ParseError = NoCreateTableFound

  /** A column is nullable when none of its options is NOT NULL. */
  function IsNullable(options: seq<ColumnOption>): (r: bool)
    ensures r <==> NotNull !in options
  {
    if |options| == 0 then true
    else if options[0] == NotNull then false
    else IsNullable(options[1..])
  }

  /** One `TableColumn` per declared column, in declared order, with name and type text copied unchanged. */
  function ExtractColumns(defs: seq<ColumnDef>): (r: seq<TableColumn>)
    ensures |r| == |defs|
    ensures forall i :: 0 <= i < |defs| ==>
      && r[i].name == defs[i].name
      && r[i].sqlType == defs[i].dataType
      && (r[i].isNullable <==> NotNull !in defs[i].options)
  {
    seq(|defs|, i requires 0 <= i < |defs| =>
      TableColumn(defs[i].name, defs[i].dataType, IsNullable(defs[i].options)))
  }

  /** The string elements of a JSON array, in order; every other element is dropped
      (`filter_map(|v| v.as_str())`). */
  function StringElements(items: seq<Json.Value>): (r: seq<string>)
    ensures |r| <= |items|
    ensures forall s :: s in r <==> Json.JStr(s) in items
  {
    if |items| == 0 then []
    else if items[0].JStr? then [items[0].str] + StringElements(items[1..])
    else StringElements(items[1..])
  }

  /** Keeping the string elements distributes over concatenation, so the
      strings keep their relative order. */
  lemma {:induction false} StringElementsAppend(a: seq<Json.Value>, b: seq<Json.Value>)
    ensures StringElements(a + b) == StringElements(a) + StringElements(b)
  {
    if |a| == 0 {
      assert a + b == b;
    } else {
      var ab := a + b;
      assert ab[0] == a[0];
      assert ab[1..] == a[1..] + b;
      var head: seq<string> := if a[0].JStr? then [a[0].str] else [];
      calc {
        StringElements(ab);
        head + StringElements(ab[1..]);
        head + StringElements(a[1..] + b);
        { StringElementsAppend(a[1..], b); }
        head + (StringElements(a[1..]) + StringElements(b));
        (head + StringElements(a[1..])) + StringElements(b);
        StringElements(a) + StringElements(b);
      }
    }
  }

  /** A string element contributes its text, any other element nothing. */
  lemma StringElementsSingle(v: Json.Value)
    ensures StringElements([v]) == (if v.JStr? then [v.str] else [])
  {
  }

  /** The rule entry of the rules document for `table`, if there is one (`rules.get(&table_name)`). */
  function RuleEntry(rules: Option<Json.Value>, table: string): (r: Option<Json.Value>)
    ensures r.Some? <==> rules.Some? && rules.value.JObj? && table in rules.value.fields
    ensures r.Some? ==> r.value == rules.value.fields[table]
  {
    match rules
    case None => None
    case Some(doc) => Json.Get(doc, table)
  }

  /** One rule list: `Some` exactly when the entry for `table` exists and
      holds an array under `key`; its string elements, in order. */
  function RuleList(rules: Option<Json.Value>, table: string, key: string): (r: Option<seq<string>>)
    ensures r.Some? <==>
      && rules.Some? && rules.value.JObj? && table in rules.value.fields
      && rules.value.fields[table].JObj? && key in rules.value.fields[table].fields
      && rules.value.fields[table].fields[key].JArr?
    ensures r.Some? ==> r.value == StringElements(rules.value.fields[table].fields[key].items)
  {
    match RuleEntry(rules, table)
    case None => None
    case Some(rule) =>
      match Json.GetArray(rule, key)
      case None => None
      case Some(items) => Some(StringElements(items))
  }

  /** The first CREATE TABLE statement of the list, if any. */
  function FirstCreateTable(stmts: seq<Statement>): (r: Option<CreateTable>)
    ensures r.None? <==> forall i :: 0 <= i < |stmts| ==> !stmts[i].CreateTableStatement?
    ensures r.Some? ==> exists i :: 0 <= i < |stmts| && stmts[i] == CreateTableStatement(r.value)
                                  && (forall j :: 0 <= j < i ==> !stmts[j].CreateTableStatement?)
  {
    if |stmts| == 0 then None
    else if stmts[0].CreateTableStatement? then Some(stmts[0].table)
    else
      var r := FirstCreateTable(stmts[1..]);
      assert forall i :: 1 <= i < |stmts| ==> stmts[i] == stmts[1..][i - 1];
      r
  }

  /** The schema built from one CREATE TABLE statement: columns in declared
      order, identifiers defaulted from the table name, the rule lists of
      the entry keyed by the exact table name. */
  function SchemaOf(table: CreateTable, rules: Option<Json.Value>): (s: TableSchema)
    ensures s.tableName == table.name
    ensures s.moduleName == table.name
    ensures s.structName == Identifiers.ToPascalCase(table.name)
    ensures |s.columns| == |table.columns|
    ensures forall i :: 0 <= i < |table.columns| ==>
      && s.columns[i].name == table.columns[i].name
      && s.columns[i].sqlType == table.columns[i].dataType
      && (s.columns[i].isNullable <==> NotNull !in table.columns[i].options)
    ensures s.createSpecialFields == RuleList(rules, table.name, "create_special_fields")
    ensures s.updateSpecialFields == RuleList(rules, table.name, "update_special_fields")
    ensures s.alwaysIncludeInDto == RuleList(rules, table.name, "always_include_in_dto")
  {
    TableSchema(
      table.name,
      ExtractColumns(table.columns),
      table.name,
      Identifiers.ToPascalCase(table.name),
      RuleList(rules, table.name, "create_special_fields"),
      RuleList(rules, table.name, "update_special_fields"),
      RuleList(rules, table.name, "always_include_in_dto"))
  }

  /** `parse_sql_file` on an already parsed statement list. */
  function ParseSqlFile(stmts: seq<Statement>, rules: Option<Json.Value>): (r: Result<TableSchema, ParseError>)
    ensures r.Err? <==> forall i :: 0 <= i < |stmts| ==> !stmts[i].CreateTableStatement?
    ensures r.Ok? ==> exists i :: 0 <= i < |stmts| && stmts[i].CreateTableStatement?
                                && (forall j :: 0 <= j < i ==> !stmts[j].CreateTableStatement?)
                                && r.value == SchemaOf(stmts[i].table, rules)
  {
    match FirstCreateTable(stmts)
    case None => Err(NoCreateTableFound)
    case Some(table) => Ok(SchemaOf(table, rules))
  }

  /** Statements after the first CREATE TABLE are never looked at: appending
      any statements leaves the result unchanged. */
  lemma {:induction false} ParseIgnoresLaterStatements(stmts: seq<Statement>, more: seq<Statement>, rules: Option<Json.Value>)
    requires exists i :: 0 <= i < |stmts| && stmts[i].CreateTableStatement?
    ensures ParseSqlFile(stmts + more, rules) == ParseSqlFile(stmts, rules)
  {
    FirstCreateTableAppend(stmts, more);
  }

  lemma {:induction false} FirstCreateTableAppend(stmts: seq<Statement>, more: seq<Statement>)
    requires exists i :: 0 <= i < |stmts| && stmts[i].CreateTableStatement?
    ensures FirstCreateTable(stmts + more) == FirstCreateTable(stmts)
  {
    if !stmts[0].CreateTableStatement? {
      var i :| 0 <= i < |stmts| && stmts[i].CreateTableStatement?;
      assert stmts[1..][i - 1] == stmts[i];
      FirstCreateTableAppend(stmts[1..], more);
      assert (stmts + more)[1..] == stmts[1..] + more;
    }
  }
}
