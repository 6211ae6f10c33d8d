/** The template contexts the generators hand to the template engine. A
    context is a JSON object; the projections of `Fields` become strings
    only here, and each field record can be read back from its context
    entry (the `Decode..` functions and their round-trip lemmas). */
module Context {
  import opened Wrappers
  import opened Json
  import opened Schema
  import opened Fields

  /** Rust's `bool::to_string`. */
  function BoolText(b: bool): string {
    if b then "true" else "false"
  }

  /** Reads `BoolText` back; any other text is not a flag. */
  function ParseBool(t: string): (r: Option<bool>)
    ensures r.Some? ==> BoolText(r.value) == t
  {
    if t == "true" then Some(true) else if t == "false" then Some(false) else None
  }

  lemma BoolTextRoundTrip(b: bool)
    ensures ParseBool(BoolText(b)) == Some(b)
  {
  }

  /** The flag stored under `key`, if the object holds one. */
  function GetBool(v: Value, key: string): Option<bool> {
    match GetStr(v, key)
    case Some(t) => ParseBool(t)
    case None => None
  }

  /** The field type stored under `key`, if the object holds a rendered type there. */
  function GetFieldType(v: Value, key: string): Option<FieldType> {
    match GetStr(v, key)
    case Some(t) => ParseFieldType(t)
    case None => None
  }

  // ---------------------------------------------------------------------------
  // One context entry per field record.

  /** An entry of the model's `fields`: `rust_type` and `name`. */
  function ModelFieldEntry(f: ModelField): (v: Value)
    ensures v.JObj? && v.fields.Keys == {"rust_type", "name"}
    ensures v.fields["name"] == JStr(f.name) && v.fields["rust_type"] == JStr(RenderFieldType(f.ty))
  {
    JObj(map["rust_type" := JStr(RenderFieldType(f.ty)), "name" := JStr(f.name)])
  }

  function DecodeModelField(v: Value): Option<ModelField> {
    match (GetStr(v, "name"), GetFieldType(v, "rust_type"))
    case (Some(name), Some(ty)) => Some(ModelField(name, ty))
    case _ => None
  }

  /** The model entry loses nothing: it reads back as the record it came from. */
  lemma ModelFieldEntryRoundTrip(f: ModelField)
    ensures DecodeModelField(ModelFieldEntry(f)) == Some(f)
  {
    RenderFieldTypeRoundTrip(f.ty);
  }

  /** An entry of the DTO's `fields` or `create_fields`: `name`, `ty`, `is_optional`, `is_datetime`. */
  function DtoFieldEntry(f: DtoField): (v: Value)
    ensures v.JObj? && v.fields.Keys == {"name", "ty", "is_optional", "is_datetime"}
    ensures v.fields["name"] == JStr(f.name) && v.fields["ty"] == JStr(RenderFieldType(f.ty))
    ensures v.fields["is_optional"] == JStr(BoolText(f.isOptional))
    ensures v.fields["is_datetime"] == JStr(BoolText(f.isDatetime))
  {
    JObj(map[
      "name" := JStr(f.name),
      "ty" := JStr(RenderFieldType(f.ty)),
      "is_optional" := JStr(BoolText(f.isOptional)),
      "is_datetime" := JStr(BoolText(f.isDatetime))])
  }

  function DecodeDtoField(v: Value): Option<DtoField> {
    match (GetStr(v, "name"), GetFieldType(v, "ty"), GetBool(v, "is_optional"), GetBool(v, "is_datetime"))
    case (Some(name), Some(ty), Some(opt), Some(dt)) => Some(DtoField(name, ty, opt, dt))
    case _ => None
  }

  lemma DtoFieldEntryRoundTrip(f: DtoField)
    ensures DecodeDtoField(DtoFieldEntry(f)) == Some(f)
  {
    RenderFieldTypeRoundTrip(f.ty);
    BoolTextRoundTrip(f.isOptional);
    BoolTextRoundTrip(f.isDatetime);
  }

  /** An entry of the DTO's `update_fields`: the DTO entry keys plus `always_include`. */
  function DtoUpdateFieldEntry(f: DtoUpdateField): (v: Value)
    ensures v.JObj? && v.fields.Keys == {"name", "ty", "always_include", "is_optional", "is_datetime"}
    ensures v.fields["name"] == JStr(f.name) && v.fields["ty"] == JStr(RenderFieldType(f.ty))
    ensures v.fields["always_include"] == JStr(BoolText(f.alwaysInclude))
    ensures v.fields["is_optional"] == JStr(BoolText(f.isOptional))
    ensures v.fields["is_datetime"] == JStr(BoolText(f.isDatetime))
  {
    JObj(map[
      "name" := JStr(f.name),
      "ty" := JStr(RenderFieldType(f.ty)),
      "always_include" := JStr(BoolText(f.alwaysInclude)),
      "is_optional" := JStr(BoolText(f.isOptional)),
      "is_datetime" := JStr(BoolText(f.isDatetime))])
  }

  function DecodeDtoUpdateField(v: Value): Option<DtoUpdateField> {
    match (GetStr(v, "name"), GetFieldType(v, "ty"), GetBool(v, "always_include"),
           GetBool(v, "is_optional"), GetBool(v, "is_datetime"))
    case (Some(name), Some(ty), Some(always), Some(opt), Some(dt)) => Some(DtoUpdateField(name, ty, always, opt, dt))
    case _ => None
  }

  lemma DtoUpdateFieldEntryRoundTrip(f: DtoUpdateField)
    ensures DecodeDtoUpdateField(DtoUpdateFieldEntry(f)) == Some(f)
  {
    RenderFieldTypeRoundTrip(f.ty);
    BoolTextRoundTrip(f.alwaysInclude);
    BoolTextRoundTrip(f.isOptional);
    BoolTextRoundTrip(f.isDatetime);
  }

  /** An entry of the queries' `insert_fields`: only `name`. */
  function InsertFieldEntry(name: string): (v: Value)
    ensures v.JObj? && v.fields.Keys == {"name"} && v.fields["name"] == JStr(name)
  {
    JObj(map["name" := JStr(name)])
  }

  /** An entry of the queries' `update_fields`: `name`, `is_optional`, `is_datetime`. */
  function QueryUpdateFieldEntry(f: QueryUpdateField): (v: Value)
    ensures v.JObj? && v.fields.Keys == {"name", "is_optional", "is_datetime"}
    ensures v.fields["name"] == JStr(f.name)
    ensures v.fields["is_optional"] == JStr(BoolText(f.isOptional))
    ensures v.fields["is_datetime"] == JStr(BoolText(f.isDatetime))
  {
    JObj(map[
      "name" := JStr(f.name),
      "is_optional" := JStr(BoolText(f.isOptional)),
      "is_datetime" := JStr(BoolText(f.isDatetime))])
  }

  function DecodeQueryUpdateField(v: Value): Option<QueryUpdateField> {
    match (GetStr(v, "name"), GetBool(v, "is_optional"), GetBool(v, "is_datetime"))
    case (Some(name), Some(opt), Some(dt)) => Some(QueryUpdateField(name, opt, dt))
    case _ => None
  }

  lemma QueryUpdateFieldEntryRoundTrip(f: QueryUpdateField)
    ensures DecodeQueryUpdateField(QueryUpdateFieldEntry(f)) == Some(f)
  {
    BoolTextRoundTrip(f.isOptional);
    BoolTextRoundTrip(f.isDatetime);
  }

  // ---------------------------------------------------------------------------
  // The contexts of the generators.

  /** The entries of a list of model fields, each reading back as its record. */
  function ModelFieldEntries(fs: seq<ModelField>): (r: seq<Value>)
    ensures |r| == |fs|
    ensures forall i :: 0 <= i < |fs| ==> r[i] == ModelFieldEntry(fs[i]) && DecodeModelField(r[i]) == Some(fs[i])
  {
    forall i | 0 <= i < |fs|
      ensures DecodeModelField(ModelFieldEntry(fs[i])) == Some(fs[i])
    {
      ModelFieldEntryRoundTrip(fs[i]);
    }
    seq(|fs|, i requires 0 <= i < |fs| => ModelFieldEntry(fs[i]))
  }

  /** The entries of a list of DTO fields, each reading back as its record. */
  function DtoFieldEntries(fs: seq<DtoField>): (r: seq<Value>)
    ensures |r| == |fs|
    ensures forall i :: 0 <= i < |fs| ==> r[i] == DtoFieldEntry(fs[i]) && DecodeDtoField(r[i]) == Some(fs[i])
  {
    forall i | 0 <= i < |fs|
      ensures DecodeDtoField(DtoFieldEntry(fs[i])) == Some(fs[i])
    {
      DtoFieldEntryRoundTrip(fs[i]);
    }
    seq(|fs|, i requires 0 <= i < |fs| => DtoFieldEntry(fs[i]))
  }

  /** The entries of a list of update DTO fields, each reading back as its record. */
  function DtoUpdateFieldEntries(fs: seq<DtoUpdateField>): (r: seq<Value>)
    ensures |r| == |fs|
    ensures forall i :: 0 <= i < |fs| ==> r[i] == DtoUpdateFieldEntry(fs[i]) && DecodeDtoUpdateField(r[i]) == Some(fs[i])
  {
    forall i | 0 <= i < |fs|
      ensures DecodeDtoUpdateField(DtoUpdateFieldEntry(fs[i])) == Some(fs[i])
    {
      DtoUpdateFieldEntryRoundTrip(fs[i]);
    }
    seq(|fs|, i requires 0 <= i < |fs| => DtoUpdateFieldEntry(fs[i]))
  }

  /** The entries of a list of UPDATE statement fields, each reading back as its record. */
  function QueryUpdateFieldEntries(fs: seq<QueryUpdateField>): (r: seq<Value>)
    ensures |r| == |fs|
    ensures forall i :: 0 <= i < |fs| ==> r[i] == QueryUpdateFieldEntry(fs[i]) && DecodeQueryUpdateField(r[i]) == Some(fs[i])
  {
    forall i | 0 <= i < |fs|
      ensures DecodeQueryUpdateField(QueryUpdateFieldEntry(fs[i])) == Some(fs[i])
    {
      QueryUpdateFieldEntryRoundTrip(fs[i]);
    }
    seq(|fs|, i requires 0 <= i < |fs| => QueryUpdateFieldEntry(fs[i]))
  }

  /** A list of names as JSON strings, in order. */
  function NameStrings(names: seq<string>): (r: seq<Value>)
    ensures |r| == |names|
    ensures forall i :: 0 <= i < |names| ==> r[i] == JStr(names[i])
  {
    seq(|names|, i requires 0 <= i < |names| => JStr(names[i]))
  }

  /** A list of names as `{name}` entries, in order. */
  function InsertFieldEntries(names: seq<string>): (r: seq<Value>)
    ensures |r| == |names|
    ensures forall i :: 0 <= i < |names| ==> r[i] == InsertFieldEntry(names[i]) && GetStr(r[i], "name") == Some(names[i])
  {
    seq(|names|, i requires 0 <= i < |names| => InsertFieldEntry(names[i]))
  }

  /** Context of `model.tera`. */
  function ModelContext(s: TableSchema): (v: Value)
    ensures v.JObj? && v.fields.Keys == {"table_name", "struct_name", "fields"}
    ensures v.fields["table_name"] == JStr(s.tableName) && v.fields["struct_name"] == JStr(s.structName)
    ensures v.fields["fields"] == JArr(ModelFieldEntries(ModelFields(s)))
  {
    JObj(map[
      "table_name" := JStr(s.tableName),
      "struct_name" := JStr(s.structName),
      "fields" := JArr(ModelFieldEntries(ModelFields(s)))])
  }

  /** Context of `dto.tera`: the full, create and update field lists. */
  function DtoContext(s: TableSchema): (v: Value)
    ensures v.JObj? && v.fields.Keys == {"struct_name", "fields", "create_fields", "update_fields"}
    ensures v.fields["struct_name"] == JStr(s.structName)
    ensures v.fields["fields"] == JArr(DtoFieldEntries(DtoFields(s)))
    ensures v.fields["create_fields"] == JArr(DtoFieldEntries(CreateFields(s)))
    ensures v.fields["update_fields"] == JArr(DtoUpdateFieldEntries(DtoUpdateFields(s)))
  {
    JObj(map[
      "struct_name" := JStr(s.structName),
      "fields" := JArr(DtoFieldEntries(DtoFields(s))),
      "create_fields" := JArr(DtoFieldEntries(CreateFields(s))),
      "update_fields" := JArr(DtoUpdateFieldEntries(DtoUpdateFields(s)))])
  }

  /** Context of `queries.tera`. */
  function QueriesContext(s: TableSchema): (v: Value)
    ensures v.JObj?
    ensures v.fields.Keys == {"struct_name", "module_name", "table_name", "select_fields", "insert_fields", "update_fields"}
    ensures && v.fields["struct_name"] == JStr(s.structName)
            && v.fields["module_name"] == JStr(s.moduleName)
            && v.fields["table_name"] == JStr(s.tableName)
    ensures v.fields["select_fields"] == JArr(NameStrings(SelectFields(s)))
    ensures v.fields["insert_fields"] == JArr(InsertFieldEntries(InsertFields(s)))
    ensures v.fields["update_fields"] == JArr(QueryUpdateFieldEntries(QueryUpdateFields(s)))
  {
    JObj(map[
      "struct_name" := JStr(s.structName),
      "module_name" := JStr(s.moduleName),
      "table_name" := JStr(s.tableName),
      "select_fields" := JArr(NameStrings(SelectFields(s))),
      "insert_fields" := JArr(InsertFieldEntries(InsertFields(s))),
      "update_fields" := JArr(QueryUpdateFieldEntries(QueryUpdateFields(s)))])
  }

  /** Context of `repository.tera`. */
  function RepositoryContext(s: TableSchema): (v: Value)
    ensures v.JObj? && v.fields.Keys == {"struct_name", "table_name", "module_name"}
    ensures && v.fields["struct_name"] == JStr(s.structName)
            && v.fields["table_name"] == JStr(s.tableName)
            && v.fields["module_name"] == JStr(s.moduleName)
  {
    JObj(map[
      "struct_name" := JStr(s.structName),
      "table_name" := JStr(s.tableName),
      "module_name" := JStr(s.moduleName)])
  }

  /** Context of `service.tera`, `routes.tera`, `handlers.tera` and
      `services.tera`: the struct and module names only (no table name). */
  function NamesContext(s: TableSchema): (v: Value)
    ensures v.JObj? && v.fields.Keys == {"struct_name", "module_name"}
    ensures v.fields["struct_name"] == JStr(s.structName) && v.fields["module_name"] == JStr(s.moduleName)
  {
    JObj(map["struct_name" := JStr(s.structName), "module_name" := JStr(s.moduleName)])
  }

  /** The module names of all schemas, in schema order. */
  function ModuleNames(schemas: seq<TableSchema>): (r: seq<string>)
    ensures |r| == |schemas|
    ensures forall i :: 0 <= i < |schemas| ==> r[i] == schemas[i].moduleName
  {
    seq(|schemas|, i requires 0 <= i < |schemas| => schemas[i].moduleName)
  }

  /** Context of `lib.tera`, `app.tera` and `app_state.tera`: `modules` lists the module names. */
  function ModulesContext(schemas: seq<TableSchema>): (v: Value)
    ensures v.JObj? && v.fields.Keys == {"modules"}
    ensures v.fields["modules"].JArr? && |v.fields["modules"].items| == |schemas|
    ensures forall i :: 0 <= i < |schemas| ==> v.fields["modules"].items[i] == JStr(schemas[i].moduleName)
  {
    var names := ModuleNames(schemas);
    JObj(map["modules" := JArr(seq(|names|, i requires 0 <= i < |names| => JStr(names[i])))])
  }

  /** One entry of the bootstrap `modules` list: `module` and `struct_name`. */
  function BootstrapEntry(s: TableSchema): (v: Value)
    ensures v.JObj? && v.fields.Keys == {"module", "struct_name"}
    ensures v.fields["module"] == JStr(s.moduleName) && v.fields["struct_name"] == JStr(s.structName)
  {
    JObj(map["module" := JStr(s.moduleName), "struct_name" := JStr(s.structName)])
  }

  /** Context of `bootstrap.tera`: one entry per schema, in schema order. */
  function BootstrapContext(schemas: seq<TableSchema>): (v: Value)
    ensures v.JObj? && v.fields.Keys == {"modules"}
    ensures v.fields["modules"].JArr? && |v.fields["modules"].items| == |schemas|
    ensures forall i :: 0 <= i < |schemas| ==> v.fields["modules"].items[i] == BootstrapEntry(schemas[i])
    ensures forall i :: 0 <= i < |schemas| ==>
      && GetStr(v.fields["modules"].items[i], "module") == Some(schemas[i].moduleName)
      && GetStr(v.fields["modules"].items[i], "struct_name") == Some(schemas[i].structName)
  {
    JObj(map["modules" := JArr(seq(|schemas|, i requires 0 <= i < |schemas| => BootstrapEntry(schemas[i])))])
  }
}
