/** Field classification: the per-column projections of a schema that the
    model, DTO and queries generators put into their template contexts.
    Each projection is a typed record list; strings appear only where the
    generated code is spelled out (`RenderFieldType`). */
module Fields {
  import opened Wrappers
  import opened Ascii
  import opened TypeMap
  import opened Schema

  /** The Rust type of a generated field: the mapped type, or that type wrapped in `Option<..>`. */
  datatype FieldType = Plain(base: RustType) | Optional(base: RustType)

  /** The Rust spelling of a field type (`format!("Option<{}>", ..)` for the wrapped case). */
  function RenderFieldType(t: FieldType): string {
    match t
    case Plain(b) => TypeName(b)
    case Optional(b) => "Option<" + TypeName(b) + ">"
  }

  /** No bare type spelling begins with `Option<`. */
  lemma TypeNameNotOption(t: RustType)
    ensures !StartsWith(TypeName(t), "Option<")
  {
  }

  /** The rendered type begins with `Option<` exactly when it is the wrapped case;
      this is the test the DTO generator uses to compute `is_optional`. */
  lemma RenderedOptionPrefix(t: FieldType)
    ensures StartsWith(RenderFieldType(t), "Option<") <==> t.Optional?
  {
    if t.Optional? {
      StartsWithConcat("Option<", TypeName(t.base) + ">");
      assert RenderFieldType(t) == "Option<" + (TypeName(t.base) + ">");
    } else {
      TypeNameNotOption(t.base);
    }
  }

  /** Reads a rendered field type back. */
  function ParseFieldType(text: string): (r: Option<FieldType>)
    ensures r.Some? ==> RenderFieldType(r.value) == text
  {
    if StartsWith(text, "Option<") && EndsWith(text, ">") && |text| >= 8 then
      match TypeFromName(text[7..|text| - 1])
      case Some(b) =>
        WrappedSplit(text, "Option<", ">");
        Some(Optional(b))
      case None => None
    else
      match TypeFromName(text)
      case Some(b) => Some(Plain(b))
      case None => None
  }

  /** A text that starts with `p`, ends with `q` and is long enough for both
      is its middle wrapped in `p` and `q`. */
  lemma WrappedSplit(text: string, p: string, q: string)
    requires StartsWith(text, p) && EndsWith(text, q) && |text| >= |p| + |q|
    ensures text == p + text[|p|..|text| - |q|] + q
  {
    PrefixOf(text, p);
    SuffixOf(text, q);
    SplitThree(text, |p|, |text| - |q|);
  }

  lemma SplitThree(text: string, i: nat, j: nat)
    requires i <= j <= |text|
    ensures text == text[..i] + text[i..j] + text[j..]
  {
    assert text[..j] == text[..i] + text[i..j];
    assert text == text[..j] + text[j..];
  }

  lemma {:induction false} PrefixOf(s: string, p: string)
    requires StartsWith(s, p)
    ensures |p| <= |s| && s[..|p|] == p
    decreases |p|
  {
    if |p| > 0 {
      PrefixOf(s[1..], p[1..]);
      assert s[..|p|] == [s[0]] + s[1..][..|p| - 1];
    }
  }

  lemma {:induction false} SuffixOf(s: string, p: string)
    requires EndsWith(s, p)
    ensures |p| <= |s| && s[|s| - |p|..] == p
    decreases |p|
  {
    if |p| > 0 {
      SuffixOf(s[..|s| - 1], p[..|p| - 1]);
      assert s[|s| - |p|..] == s[..|s| - 1][|s| - |p|..] + [s[|s| - 1]];
      assert p == p[..|p| - 1] + [p[|p| - 1]];
    }
  }

  /** Rendering a field type and reading it back gives the same type, so the
      rendered spelling loses nothing. */
  lemma RenderFieldTypeRoundTrip(t: FieldType)
    ensures ParseFieldType(RenderFieldType(t)) == Some(t)
  {
    var text := RenderFieldType(t);
    TypeNameRoundTrip(t.base);
    if t.Optional? {
      RenderedOptionPrefix(t);
      EndsWithConcat("Option<" + TypeName(t.base), ">");
      assert text[7..|text| - 1] == TypeName(t.base);
    } else {
      TypeNameNotOption(t.base);
    }
  }

  // ---------------------------------------------------------------------------
  // The rule lists and the column filter shared by the filtered projections.

  /** A rule list with an absent list read as empty (`as_deref().unwrap_or(&[])`). */
  function Members(list: Option<seq<string>>): seq<string> {
    list.GetOr([])
  }

  /** The filter of the generators: a column stays unless its name is in
      `skip`, and a name in `reinstate` stays even then. */
  predicate Kept(name: string, skip: seq<string>, reinstate: seq<string>) {
    name !in skip || name in reinstate
  }

  /** The columns that pass `Kept`, in their original order. */
  function FilterColumns(cols: seq<TableColumn>, skip: seq<string>, reinstate: seq<string>): (r: seq<TableColumn>)
    ensures |r| <= |cols|
    ensures forall i :: 0 <= i < |r| ==> Kept(r[i].name, skip, reinstate)
  {
    if |cols| == 0 then []
    else if Kept(cols[0].name, skip, reinstate) then [cols[0]] + FilterColumns(cols[1..], skip, reinstate)
    else FilterColumns(cols[1..], skip, reinstate)
  }

  /** A column is in the filtered list exactly when it is in the input and passes `Kept`. */
  lemma {:induction false} FilterColumnsMembers(cols: seq<TableColumn>, skip: seq<string>, reinstate: seq<string>, c: TableColumn)
    ensures c in FilterColumns(cols, skip, reinstate) <==> c in cols && Kept(c.name, skip, reinstate)
  {
    if |cols| > 0 {
      FilterColumnsMembers(cols[1..], skip, reinstate, c);
      assert cols == [cols[0]] + cols[1..];
    }
  }

  /** Filtering decides by name: a column of the input has its name among
      the kept columns exactly when its name passes `Kept`. */
  lemma KeptNameIff(cols: seq<TableColumn>, skip: seq<string>, reinstate: seq<string>, c: TableColumn)
    requires c in cols
    ensures var kept := FilterColumns(cols, skip, reinstate);
      (exists i :: 0 <= i < |kept| && kept[i].name == c.name) <==> Kept(c.name, skip, reinstate)
  {
    var kept := FilterColumns(cols, skip, reinstate);
    FilterColumnsMembers(cols, skip, reinstate, c);
    if Kept(c.name, skip, reinstate) {
      var i :| 0 <= i < |kept| && kept[i] == c;
    }
  }

  /** The filter distributes over concatenation, so kept columns keep their relative order. */
  lemma {:induction false} FilterColumnsAppend(a: seq<TableColumn>, b: seq<TableColumn>, skip: seq<string>, reinstate: seq<string>)
    ensures FilterColumns(a + b, skip, reinstate) == FilterColumns(a, skip, reinstate) + FilterColumns(b, skip, reinstate)
  {
    if |a| == 0 {
      assert a + b == b;
    } else {
      var ab := a + b;
      assert ab[0] == a[0];
      assert ab[1..] == a[1..] + b;
      var head := if Kept(a[0].name, skip, reinstate) then [a[0]] else [];
      calc {
        FilterColumns(ab, skip, reinstate);
        head + FilterColumns(ab[1..], skip, reinstate);
        head + FilterColumns(a[1..] + b, skip, reinstate);
        { FilterColumnsAppend(a[1..], b, skip, reinstate); }
        head + (FilterColumns(a[1..], skip, reinstate) + FilterColumns(b, skip, reinstate));
        (head + FilterColumns(a[1..], skip, reinstate)) + FilterColumns(b, skip, reinstate);
        FilterColumns(a, skip, reinstate) + FilterColumns(b, skip, reinstate);
      }
    }
  }

  /** With nothing to skip, the filter keeps every column. */
  lemma {:induction false} FilterColumnsNothingSkipped(cols: seq<TableColumn>, reinstate: seq<string>)
    ensures FilterColumns(cols, [], reinstate) == cols
  {
    if |cols| > 0 {
      FilterColumnsNothingSkipped(cols[1..], reinstate);
    }
  }

  // ---------------------------------------------------------------------------
  // The projections.

  /** A field of `domain/model.rs`: the name and the (possibly wrapped) Rust type. */
  datatype ModelField = ModelField(name: string, ty: FieldType)

  /** A field of the full DTO or of the create DTO. */
  datatype DtoField = DtoField(name: string, ty: FieldType, isOptional: bool, isDatetime: bool)

  /** A field of the update DTO. */
  datatype DtoUpdateField = DtoUpdateField(name: string, ty: FieldType, alwaysInclude: bool, isOptional: bool, isDatetime: bool)

  /** A field of the UPDATE statement in `queries.rs`. */
  datatype QueryUpdateField = QueryUpdateField(name: string, isOptional: bool, isDatetime: bool)

  /** The column's mapped type, wrapped in `Option<..>` when the column is nullable. */
  function NullableType(c: TableColumn): (t: FieldType)
    ensures t.base == MapSqlType(c.sqlType)
    ensures t.Optional? <==> c.isNullable
  {
    if c.isNullable then Optional(MapSqlType(c.sqlType)) else Plain(MapSqlType(c.sqlType))
  }

  /** `fields` of the model generator: one entry per column, in column order. */
  function ModelFields(s: TableSchema): (r: seq<ModelField>)
    ensures |r| == |s.columns|
    ensures forall i :: 0 <= i < |r| ==>
      && r[i].name == s.columns[i].name
      && r[i].ty.base == MapSqlType(s.columns[i].sqlType)
      && (r[i].ty.Optional? <==> s.columns[i].isNullable)
  {
    seq(|s.columns|, i requires 0 <= i < |s.columns| =>
      ModelField(s.columns[i].name, NullableType(s.columns[i])))
  }

  /** One entry of the full DTO list; `is_optional` is read off the rendered type. */
  function FullEntry(c: TableColumn): (f: DtoField)
    ensures f.name == c.name && f.ty == NullableType(c)
    ensures f.isOptional == c.isNullable
    ensures f.isDatetime == IsDatetime(c.sqlType)
  {
    var ty := NullableType(c);
    RenderedOptionPrefix(ty);
    DtoField(c.name, ty, StartsWith(RenderFieldType(ty), "Option<"), IsDatetime(c.sqlType))
  }

  /** One entry of the create DTO list; `is_optional` tests the bare type for
      an `Option<` prefix (never present) or the column's nullability. */
  function CreateEntry(c: TableColumn): (f: DtoField)
    ensures f.name == c.name && f.ty == NullableType(c)
    ensures f.isOptional == c.isNullable
    ensures f.isDatetime == IsDatetime(c.sqlType)
  {
    var base := MapSqlType(c.sqlType);
    TypeNameNotOption(base);
    DtoField(c.name, NullableType(c), StartsWith(TypeName(base), "Option<") || c.isNullable, IsDatetime(c.sqlType))
  }

  /** `fields` of the DTO generator: one entry per column, in column order. */
  function DtoFields(s: TableSchema): (r: seq<DtoField>)
    ensures |r| == |s.columns|
    ensures forall i :: 0 <= i < |r| ==>
      && r[i].name == s.columns[i].name
      && r[i].ty.base == MapSqlType(s.columns[i].sqlType)
      && (r[i].ty.Optional? <==> s.columns[i].isNullable)
      && r[i].isOptional == s.columns[i].isNullable
      && r[i].isDatetime == IsDatetime(s.columns[i].sqlType)
  {
    seq(|s.columns|, i requires 0 <= i < |s.columns| => FullEntry(s.columns[i]))
  }

  /** The columns of the create DTO: not a create special field, or always included. */
  function CreateColumns(s: TableSchema): seq<TableColumn> {
    FilterColumns(s.columns, Members(s.createSpecialFields), Members(s.alwaysIncludeInDto))
  }

  /** The columns of the update DTO: not an update special field, or always included. */
  function DtoUpdateColumns(s: TableSchema): seq<TableColumn> {
    FilterColumns(s.columns, Members(s.updateSpecialFields), Members(s.alwaysIncludeInDto))
  }

  /** The columns of the INSERT statement: not a create special field (no reinstatement). */
  function InsertColumns(s: TableSchema): seq<TableColumn> {
    FilterColumns(s.columns, Members(s.createSpecialFields), [])
  }

  /** The columns of the UPDATE statement: not an update special field (no reinstatement). */
  function QueryUpdateColumns(s: TableSchema): seq<TableColumn> {
    FilterColumns(s.columns, Members(s.updateSpecialFields), [])
  }

  /** `create_fields` of the DTO generator. */
  function CreateFields(s: TableSchema): (r: seq<DtoField>)
    ensures var kept := CreateColumns(s);
      && |r| == |kept|
      && forall i :: 0 <= i < |r| ==>
        && r[i].name == kept[i].name
        && r[i].ty.base == MapSqlType(kept[i].sqlType)
        && (r[i].ty.Optional? <==> kept[i].isNullable)
        && r[i].isOptional == kept[i].isNullable
        && r[i].isDatetime == IsDatetime(kept[i].sqlType)
  {
    var kept := CreateColumns(s);
    seq(|kept|, i requires 0 <= i < |kept| => CreateEntry(kept[i]))
  }

  /** One entry of the update DTO list: required exactly for always-included names. */
  function DtoUpdateEntry(always: seq<string>, c: TableColumn): (f: DtoUpdateField)
    ensures f.name == c.name && f.ty.base == MapSqlType(c.sqlType)
    ensures f.ty.Plain? <==> c.name in always
    ensures f.alwaysInclude <==> c.name in always
    ensures f.isOptional <==> c.name !in always
    ensures f.isDatetime == IsDatetime(c.sqlType)
  {
    var base := MapSqlType(c.sqlType);
    var alwaysIncluded := c.name in always;
    DtoUpdateField(c.name, if alwaysIncluded then Plain(base) else Optional(base), alwaysIncluded, !alwaysIncluded, IsDatetime(c.sqlType))
  }

  /** `update_fields` of the DTO generator. */
  function DtoUpdateFields(s: TableSchema): (r: seq<DtoUpdateField>)
    ensures var kept := DtoUpdateColumns(s);
      var always := Members(s.alwaysIncludeInDto);
      && |r| == |kept|
      && forall i :: 0 <= i < |r| ==>
        && r[i].name == kept[i].name
        && r[i].ty.base == MapSqlType(kept[i].sqlType)
        && (r[i].ty.Plain? <==> kept[i].name in always)
        && (r[i].isOptional <==> kept[i].name !in always)
        && (r[i].alwaysInclude <==> kept[i].name in always)
        && r[i].isDatetime == IsDatetime(kept[i].sqlType)
  {
    var kept := DtoUpdateColumns(s);
    var always := Members(s.alwaysIncludeInDto);
    seq(|kept|, i requires 0 <= i < |kept| => DtoUpdateEntry(always, kept[i]))
  }

  /** The names of some columns, in order. */
  function ColumnNames(cols: seq<TableColumn>): (r: seq<string>)
    ensures |r| == |cols|
    ensures forall i :: 0 <= i < |cols| ==> r[i] == cols[i].name
  {
    seq(|cols|, i requires 0 <= i < |cols| => cols[i].name)
  }

  /** `select_fields` of the queries generator: every column name, in column order. */
  function SelectFields(s: TableSchema): (r: seq<string>)
    ensures |r| == |s.columns|
    ensures forall i :: 0 <= i < |r| ==> r[i] == s.columns[i].name
  {
    ColumnNames(s.columns)
  }

  /** `insert_fields` of the queries generator: the names of the INSERT columns. */
  function InsertFields(s: TableSchema): (r: seq<string>)
    ensures var kept := InsertColumns(s);
      && |r| == |kept|
      && forall i :: 0 <= i < |r| ==> r[i] == kept[i].name && r[i] !in Members(s.createSpecialFields)
  {
    ColumnNames(InsertColumns(s))
  }

  /** One entry of the queries `update_fields` list. */
  function QueryUpdateEntry(always: seq<string>, c: TableColumn): (f: QueryUpdateField)
    ensures f.name == c.name
    ensures f.isOptional <==> c.name !in always
    ensures f.isDatetime == IsDatetime(c.sqlType)
  {
    QueryUpdateField(c.name, c.name !in always, IsDatetime(c.sqlType))
  }

  /** `update_fields` of the queries generator. */
  function QueryUpdateFields(s: TableSchema): (r: seq<QueryUpdateField>)
    ensures var kept := QueryUpdateColumns(s);
      var always := Members(s.alwaysIncludeInDto);
      && |r| == |kept|
      && forall i :: 0 <= i < |r| ==>
        && r[i].name == kept[i].name
        && (r[i].isOptional <==> kept[i].name !in always)
        && r[i].isDatetime == IsDatetime(kept[i].sqlType)
  {
    var kept := QueryUpdateColumns(s);
    var always := Members(s.alwaysIncludeInDto);
    seq(|kept|, i requires 0 <= i < |kept| => QueryUpdateEntry(always, kept[i]))
  }
}
