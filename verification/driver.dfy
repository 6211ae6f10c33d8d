/** The command-line driver (`main`) after its inputs are read: parse the
    first table, let the rule entry of that table override the module and
    struct names, and generate code for exactly that one schema. Reading
    the files and decoding the rules text (and the panics when either
    fails) happen before this point and are not modelled. */
module Driver {
  import opened Wrappers
  import Json
  import Identifiers
  import opened Schema
  import opened Generation

  /** The override block of `main`: with a rule entry for the table, a
      string `module_name` / `struct_name` replaces the current name and
      anything else keeps it; without an entry both names are reset to the
      derived defaults. */
  function ApplyRuleOverrides(s: TableSchema, rules: Json.Value): (r: TableSchema)
    ensures && r.tableName == s.tableName && r.columns == s.columns
            && r.createSpecialFields == s.createSpecialFields
            && r.updateSpecialFields == s.updateSpecialFields
            && r.alwaysIncludeInDto == s.alwaysIncludeInDto
    ensures rules.JObj? && s.tableName in rules.fields ==>
      var rule := rules.fields[s.tableName];
      && r.moduleName == (if rule.JObj? && "module_name" in rule.fields && rule.fields["module_name"].JStr?
                          then rule.fields["module_name"].str else s.moduleName)
      && r.structName == (if rule.JObj? && "struct_name" in rule.fields && rule.fields["struct_name"].JStr?
                          then rule.fields["struct_name"].str else s.structName)
    ensures !(rules.JObj? && s.tableName in rules.fields) ==>
      r.moduleName == s.tableName && r.structName == Identifiers.ToPascalCase(s.tableName)
  {
    match Json.Get(rules, s.tableName)
    case Some(rule) =>
      s.(moduleName := Json.GetStr(rule, "module_name").GetOr(s.moduleName),
         structName := Json.GetStr(rule, "struct_name").GetOr(s.structName))
    case None =>
      s.(moduleName := s.tableName, structName := Identifiers.ToPascalCase(s.tableName))
  }

  /** Without a rule entry the reset writes back the defaults the parser
      already chose, so for a freshly parsed schema the override is a no-op. */
  lemma OverrideWithoutEntryIsNoOp(stmts: seq<Statement>, rules: Json.Value)
    requires ParseSqlFile(stmts, Some(rules)).Ok?
    requires var s := ParseSqlFile(stmts, Some(rules)).value;
      !(rules.JObj? && s.tableName in rules.fields)
    ensures var s := ParseSqlFile(stmts, Some(rules)).value;
      ApplyRuleOverrides(s, rules) == s
  {
  }

  /** The schema `main` generates from: the parsed first table with the
      name overrides applied. */
  function ConfiguredSchema(stmts: seq<Statement>, rules: Json.Value): (r: Result<TableSchema, ParseError>)
    ensures r.Err? <==> forall i :: 0 <= i < |stmts| ==> !stmts[i].CreateTableStatement?
    ensures r.Ok? ==> r.value == ApplyRuleOverrides(ParseSqlFile(stmts, Some(rules)).value, rules)
  {
    match ParseSqlFile(stmts, Some(rules))
    case Err(e) => Err(e)
    case Ok(s) => Ok(ApplyRuleOverrides(s, rules))
  }

  /** `main` from the parsed inputs to the files written: no CREATE TABLE
      is an error and nothing is written; otherwise code is generated for a
      one-element schema list. */
  function Run(stmts: seq<Statement>, rules: Json.Value, render: (string, Json.Value) -> Option<string>)
    : (r: Result<Outcome, ParseError>)
    ensures r.Err? <==> forall i :: 0 <= i < |stmts| ==> !stmts[i].CreateTableStatement?
    ensures r.Ok? ==> r.value == GenerateCode([ConfiguredSchema(stmts, rules).value], render)
  {
    match ConfiguredSchema(stmts, rules)
    case Err(e) => Err(e)
    case Ok(s) => Ok(GenerateCode([s], render))
  }

  /** With a renderer that never fails, `main` writes fourteen files: the
      ten of the one table, all under its configured module directory,
      then the four project files. */
  lemma RunWritesOneTable(stmts: seq<Statement>, rules: Json.Value, render: (string, Json.Value) -> Option<string>)
    requires exists i :: 0 <= i < |stmts| && stmts[i].CreateTableStatement?
    requires forall t, c :: render(t, c).Some?
    ensures var r := Run(stmts, rules, render);
      && r.Ok? && r.value.failedAt.None? && |r.value.written| == 14
      && forall j :: 0 <= j < 10 ==>
           Ascii.StartsWith(r.value.written[j].path, ConfiguredSchema(stmts, rules).value.moduleName + "/")
  {
    GenerateCodeOneTable(ConfiguredSchema(stmts, rules).value, render);
  }

  /** A generation failure is no `Err`: with a renderer that always fails,
      `Run` is `Ok`, reports the very first write as failed and has written
      nothing (where `main` would panic). */
  lemma RunReportsRenderFailure(stmts: seq<Statement>, rules: Json.Value, render: (string, Json.Value) -> Option<string>)
    requires exists i :: 0 <= i < |stmts| && stmts[i].CreateTableStatement?
    requires forall t, c :: render(t, c).None?
    ensures var r := Run(stmts, rules, render);
      r.Ok? && r.value.failedAt == Some(0) && r.value.written == []
  {
    var s := ConfiguredSchema(stmts, rules).value;
    var plan := Plan([s]);
    AllTableStepsAt([s], 0, 0);
    TableStepsDomain(s);
    assert plan[0].Render?;
  }
}
