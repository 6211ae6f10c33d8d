/** Concrete instances of the general properties: the examples the type
    mapper and the name deriver are documented with, and the `todo` table
    whose DTO shapes the generated route tests use. */
module Scenarios {
  import opened Wrappers
  import opened Ascii
  import opened TypeMap
  import opened Identifiers
  import opened Schema
  import opened Fields
  import opened FieldProperties

  // ---------------------------------------------------------------------------
  // Type mapping.

  /** The text arm is tried first: `charblob` is text although it ends in `blob`. */
  lemma CharBlobIsText()
    ensures MapSqlType("charblob") == RString
  {
    assert ToLower("charblob") == "charblob";
  }

  /** The `enum`/`set` arm is tried before the `blob` suffix arm. */
  lemma SetBlobIsText()
    ensures MapSqlType("setblob") == RString
  {
    assert ToLower("setblob") == "setblob";
  }

  /** A `blob` suffix that no earlier arm claims is a byte array. */
  lemma LongBlobIsBytes()
    ensures MapSqlType("LONGBLOB") == RBytes
  {
    assert ToLower("LONGBLOB") == "longblob";
    LongBlobClassified();
  }

  lemma LongBlobClassified()
    ensures Classify("longblob") == RBytes
  {
    assert "longblob" == "long" + "blob";
    EndsWithConcat("long", "blob");
  }

  /** Exact arms compare the whole token, so parameterised and extended
      spellings fall back to `String`. */
  lemma ParameterisedIntFallsBack()
    ensures MapSqlType("int(11)") == RString
  {
    assert ToLower("int(11)") == "int(11)";
    assert !IsKeyword("int(11)") && !BytesArm("int(11)");
    MapSqlTypeFallback("int(11)");
  }

  lemma TimestampWithZoneFallsBack()
    ensures MapSqlType("timestamptz") == RString
  {
    assert ToLower("timestamptz") == "timestamptz";
    assert !IsKeyword("timestamptz") && !BytesArm("timestamptz");
    MapSqlTypeFallback("timestamptz");
  }

  lemma DecimalWithPrecisionFallsBack()
    ensures MapSqlType("decimal(10,2)") == RString
  {
    assert ToLower("decimal(10,2)") == "decimal(10,2)";
    assert !IsKeyword("decimal(10,2)") && !BytesArm("decimal(10,2)");
    MapSqlTypeFallback("decimal(10,2)");
  }

  lemma EmptyTokenFallsBack()
    ensures MapSqlType("") == RString
  {
  }

  /** Case does not matter. */
  lemma UpperCaseKeyword()
    ensures MapSqlType("TIMESTAMP") == ROffsetDateTime && IsDatetime("TIMESTAMP")
  {
    assert ToLower("TIMESTAMP") == "timestamp";
    KeywordTimestamp();
  }

  lemma UpperCaseText()
    ensures MapSqlType("VARCHAR(20)") == MapSqlType("varchar(20)") == RString
  {
    var r := ToLower("VARCHAR(20)");
    assert forall i :: 0 <= i < 11 ==> r[i] == "varchar(20)"[i];
    assert r == "varchar(20)";
    assert "varchar(20)" == "varchar" + "(20)";
    StartsWithConcat("varchar", "(20)");
    MapSqlTypeCaseInsensitive("VARCHAR(20)", "varchar(20)");
  }

  /** `date` is a date but not a datetime; `timestamp(6)` is neither a
      timestamp keyword nor a datetime. */
  lemma DateIsNotDatetime()
    ensures MapSqlType("date") == RDate && !IsDatetime("date")
    ensures !IsDatetime("timestamp(6)")
  {
    assert ToLower("date") == "date";
    KeywordDate();
  }

  // ---------------------------------------------------------------------------
  // Identifier derivation.

  lemma PascalCaseTodo()
    ensures ToPascalCase("todo") == "Todo"
  {
    ToPascalCaseMatchesScan("todo");
  }

  lemma PascalCaseUserAccount()
    ensures ToPascalCase("user_account") == "UserAccount"
  {
    ToPascalCaseMatchesScan("user_account");
    ScanUserAccount();
  }

  lemma ScanUserAccount()
    ensures PascalScan("user_account", true) == "UserAccount"
  {
    UserAccountSplit();
    ScanUnderscoreSplit("user", "account", true);
    ScanUser();
    ScanAccount();
  }

  lemma UserAccountSplit()
    ensures "user_account" == "user" + ("_" + "account")
  {
  }

  lemma ScanUser()
    ensures PascalScan("user", true) == "User"
  {
  }

  lemma ScanAccount()
    ensures PascalScan("account", true) == "Account"
  {
  }

  /** Empty segments, leading, repeated or trailing, are dropped. */
  lemma PascalCaseDropsEmptySegments()
    ensures ToPascalCase("_a__b_") == "AB"
  {
    ToPascalCaseMatchesScan("_a__b_");
    assert PascalScan("b_", true) == "B";
  }

  // ---------------------------------------------------------------------------
  // The `todo` table. Its rules skip `id`, `created_at` and `modified_at`
  // in the create DTO, skip `id` and `created_at` in the update DTO, and
  // always include `modified_by`: the create payload of the generated
  // tests has no `id`, `created_at` or `modified_at`, and the update
  // payload carries a required `modified_by` and an optional `modified_at`.
  // Every column is NOT NULL, as the generated record's fields compared
  // against unwrapped payload values there are plain, not `Option`.

  function Todo(): TableSchema {
    TableSchema("todo",
      [ TableColumn("id", "uuid", false), TableColumn("user_id", "uuid", false),
        TableColumn("title", "varchar(255)", false), TableColumn("description", "text", false),
        TableColumn("status", "varchar(20)", false), TableColumn("due_date", "date", false),
        TableColumn("created_by", "uuid", false), TableColumn("created_at", "timestamp", false),
        TableColumn("modified_by", "uuid", false), TableColumn("modified_at", "timestamp", false)],
      "todo", "Todo",
      Some(["id", "created_at", "modified_at"]), Some(["id", "created_at"]), Some(["modified_by"]))
  }

  predicate HasField(fs: seq<DtoField>, name: string) {
    exists i :: 0 <= i < |fs| && fs[i].name == name
  }

  lemma TodoCreateDtoLacksId(s: TableSchema)
    requires s == Todo()
    ensures !HasField(CreateFields(s), "id")
  {
    CreateFieldsMembership(s, s.columns[0]);
  }

  lemma TodoCreateDtoLacksCreatedAt(s: TableSchema)
    requires s == Todo()
    ensures !HasField(CreateFields(s), "created_at")
  {
    CreateFieldsMembership(s, s.columns[7]);
  }

  lemma TodoCreateDtoLacksModifiedAt(s: TableSchema)
    requires s == Todo()
    ensures !HasField(CreateFields(s), "modified_at")
  {
    CreateFieldsMembership(s, s.columns[9]);
  }

  lemma TodoCreateDtoHasModifiedBy(s: TableSchema)
    requires s == Todo()
    ensures HasField(CreateFields(s), "modified_by")
  {
    CreateFieldsMembership(s, s.columns[8]);
  }

  /** `modified_by` is in the update DTO as a required field, although the other update fields are optional. */
  lemma TodoUpdateDtoRequiresModifiedBy(s: TableSchema)
    requires s == Todo()
    ensures var r := DtoUpdateFields(s);
      exists i :: 0 <= i < |r| && r[i].name == "modified_by" && r[i].ty.Plain? && !r[i].isOptional
  {
    var r, kept := DtoUpdateFields(s), DtoUpdateColumns(s);
    DtoUpdateFieldsMembership(s, s.columns[8]);
    var i :| 0 <= i < |r| && r[i].name == "modified_by";
    assert kept[i].name in Members(s.alwaysIncludeInDto);
  }

  /** `modified_at` is in the update DTO, as an optional field. */
  lemma TodoUpdateDtoHasOptionalModifiedAt(s: TableSchema)
    requires s == Todo()
    ensures var r := DtoUpdateFields(s);
      exists i :: 0 <= i < |r| && r[i].name == "modified_at" && r[i].ty.Optional? && r[i].isOptional
  {
    var r, kept := DtoUpdateFields(s), DtoUpdateColumns(s);
    DtoUpdateFieldsMembership(s, s.columns[9]);
    var i :| 0 <= i < |r| && r[i].name == "modified_at";
    assert kept[i].name !in Members(s.alwaysIncludeInDto);
  }

  /** The INSERT statement does not write `modified_at`. */
  lemma TodoInsertLacksModifiedAt(s: TableSchema)
    requires s == Todo()
    ensures "modified_at" !in InsertFields(s)
  {
    InsertFieldsMembership(s, s.columns[9]);
  }
}
