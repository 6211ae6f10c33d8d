/** The SQL-type-to-Rust-type classifier (`map_sql_type`) and the
    `is_datetime` flag the generators attach to fields. */
module TypeMap {
  import opened Ascii
  import opened Wrappers

  /** The closed set of Rust types the classifier can produce. */
  datatype RustType =
    | RString         // String
    | RUuid           // uuid::Uuid
    | RBool           // bool
    | RI8 | RI16 | RI32 | RI64
    | RF32 | RF64
    | RDate           // time::Date
    | ROffsetDateTime // time::OffsetDateTime
    | RBytes          // Vec<u8>
    | RJsonValue      // serde_json::Value

  /** The Rust spelling of a type, as written into the generated code. */
  function TypeName(t: RustType): string {
    match t
    case RString => "String"
    case RUuid => "uuid::Uuid"
    case RBool => "bool"
    case RI8 => "i8"
    case RI16 => "i16"
    case RI32 => "i32"
    case RI64 => "i64"
    case RF32 => "f32"
    case RF64 => "f64"
    case RDate => "time::Date"
    case ROffsetDateTime => "time::OffsetDateTime"
    case RBytes => "Vec<u8>"
    case RJsonValue => "serde_json::Value"
  }

  /** Inverse of `TypeName` on the thirteen spellings; `None` for any other text. */
  function TypeFromName(name: string): (r: Option<RustType>)
    ensures r.Some? ==> TypeName(r.value) == name
  {
    if name == "String" then Some(RString)
    else if name == "uuid::Uuid" then Some(RUuid)
    else if name == "bool" then Some(RBool)
    else if name == "i8" then Some(RI8)
    else if name == "i16" then Some(RI16)
    else if name == "i32" then Some(RI32)
    else if name == "i64" then Some(RI64)
    else if name == "f32" then Some(RF32)
    else if name == "f64" then Some(RF64)
    else if name == "time::Date" then Some(RDate)
    else if name == "time::OffsetDateTime" then Some(ROffsetDateTime)
    else if name == "Vec<u8>" then Some(RBytes)
    else if name == "serde_json::Value" then Some(RJsonValue)
    else None
  }

  /** Every type spelling is read back by `TypeFromName`, so `TypeName` is injective. */
  lemma TypeNameRoundTrip(t: RustType)
    ensures TypeFromName(TypeName(t)) == Some(t)
  {
  }

  /** The first arm of the classifier: a `char`/`varchar` prefix or a `text` suffix. */
  predicate TextArm(ty: string) {
    StartsWith(ty, "char") || StartsWith(ty, "varchar") || EndsWith(ty, "text")
  }

  /** The `enum`/`set` prefix arm. */
  predicate EnumSetArm(ty: string) {
    StartsWith(ty, "enum") || StartsWith(ty, "set")
  }

  /** The two byte-array arms: a `binary`/`varbinary` prefix or a `blob` suffix. */
  predicate BytesArm(ty: string) {
    StartsWith(ty, "binary") || StartsWith(ty, "varbinary") || EndsWith(ty, "blob")
  }

  /** The whole tokens that some exact arm of the classifier recognises. */
  predicate IsKeyword(ty: string) {
    || SameText(ty, "uuid") || SameText(ty, "bool") || SameText(ty, "boolean")
    || SameText(ty, "tinyint") || SameText(ty, "smallint") || SameText(ty, "mediumint")
    || SameText(ty, "int") || SameText(ty, "integer") || SameText(ty, "bigint")
    || SameText(ty, "decimal") || SameText(ty, "numeric") || SameText(ty, "float")
    || SameText(ty, "double") || SameText(ty, "date") || SameText(ty, "datetime")
    || SameText(ty, "timestamp") || SameText(ty, "time") || SameText(ty, "year")
    || SameText(ty, "json")
  }

  /** The exact arms of the classifier as a lookup table: the Rust type of each keyword. */
  function KeywordType(kw: string): RustType
    requires IsKeyword(kw)
  {
    if SameText(kw, "uuid") then RUuid
    else if SameText(kw, "bool") || SameText(kw, "boolean") then RBool
    else if SameText(kw, "tinyint") then RI8
    else if SameText(kw, "smallint") || SameText(kw, "year") then RI16
    else if SameText(kw, "mediumint") || SameText(kw, "int") || SameText(kw, "integer") then RI32
    else if SameText(kw, "bigint") then RI64
    else if SameText(kw, "decimal") || SameText(kw, "numeric") || SameText(kw, "double") then RF64
    else if SameText(kw, "float") then RF32
    else if SameText(kw, "date") then RDate
    else if SameText(kw, "datetime") || SameText(kw, "timestamp") then ROffsetDateTime
    else if SameText(kw, "json") then RJsonValue
    else RString // "time"
  }

  /** The pattern arms for a token that is no keyword: `Vec<u8>` when a
      byte-array arm is reached without first hitting the text arm or the
      `enum`/`set` arm, `String` otherwise. */
  function PatternType(ty: string): RustType {
    if TextArm(ty) || EnumSetArm(ty) then RString
    else if BytesArm(ty) then RBytes
    else RString
  }

  /** The classifier on an already lower-cased token: the arms of the
      source, tried in the same order. */
  function Classify(ty: string): RustType {
    if TextArm(ty) then RString
    else if SameText(ty, "uuid") then RUuid
    else if SameText(ty, "bool") || SameText(ty, "boolean") then RBool
    else if SameText(ty, "tinyint") then RI8
    else if SameText(ty, "smallint") then RI16
    else if SameText(ty, "mediumint") || SameText(ty, "int") || SameText(ty, "integer") then RI32
    else if SameText(ty, "bigint") then RI64
    else if SameText(ty, "decimal") || SameText(ty, "numeric") then RF64
    else if SameText(ty, "float") then RF32
    else if SameText(ty, "double") then RF64
    else if SameText(ty, "date") then RDate
    else if SameText(ty, "datetime") || SameText(ty, "timestamp") then ROffsetDateTime
    else if SameText(ty, "time") then RString
    else if SameText(ty, "year") then RI16
    else if EnumSetArm(ty) then RString
    else if StartsWith(ty, "binary") || StartsWith(ty, "varbinary") then RBytes
    else if EndsWith(ty, "blob") then RBytes
    else if SameText(ty, "json") then RJsonValue
    else RString
  }

  /** `map_sql_type`: classifies the lower-cased token. */
  function MapSqlType(sqlType: string): RustType {
    Classify(ToLower(sqlType))
  }

  /** A token that is no keyword gets its pattern type. */
  lemma ClassifyNonKeyword(ty: string)
    requires !IsKeyword(ty)
    ensures Classify(ty) == PatternType(ty)
  {
  }

  // One evaluation of the arm chain per keyword: no prefix or suffix arm
  // shadows a keyword, and each keyword reaches the arm the table names.
  // Each is a lemma of its own because evaluating all nineteen literal
  // chains inside `ClassifyKeyword` is too costly for the solver at once.
  lemma KeywordUuid() ensures Classify("uuid") == KeywordType("uuid") { }
  lemma KeywordBool() ensures Classify("bool") == KeywordType("bool") { }
  lemma KeywordBoolean() ensures Classify("boolean") == KeywordType("boolean") { }
  lemma KeywordTinyint() ensures Classify("tinyint") == KeywordType("tinyint") { }
  lemma KeywordSmallint() ensures Classify("smallint") == KeywordType("smallint") { }
  lemma KeywordMediumint() ensures Classify("mediumint") == KeywordType("mediumint") { }
  lemma KeywordInt() ensures Classify("int") == KeywordType("int") { }
  lemma KeywordInteger() ensures Classify("integer") == KeywordType("integer") { }
  lemma KeywordBigint() ensures Classify("bigint") == KeywordType("bigint") { }
  lemma KeywordDecimal() ensures Classify("decimal") == KeywordType("decimal") { }
  lemma KeywordNumeric() ensures Classify("numeric") == KeywordType("numeric") { }
  lemma KeywordFloat() ensures Classify("float") == KeywordType("float") { }
  lemma KeywordDouble() ensures Classify("double") == KeywordType("double") { }
  lemma KeywordDate() ensures Classify("date") == KeywordType("date") { }
  lemma KeywordDatetime() ensures Classify("datetime") == KeywordType("datetime") { }
  lemma KeywordTimestamp() ensures Classify("timestamp") == KeywordType("timestamp") { }
  lemma KeywordTime() ensures Classify("time") == KeywordType("time") { }
  lemma KeywordYear() ensures Classify("year") == KeywordType("year") { }
  lemma KeywordJson() ensures Classify("json") == KeywordType("json") { }

  /** A keyword gets its table entry. */
  lemma ClassifyKeyword(ty: string)
    requires IsKeyword(ty)
    ensures Classify(ty) == KeywordType(ty)
  {
    if SameText(ty, "uuid") {
      SameTextIsEquality(ty, "uuid");
      KeywordUuid();
    }
    else if SameText(ty, "bool") {
      SameTextIsEquality(ty, "bool");
      KeywordBool();
    }
    else if SameText(ty, "boolean") {
      SameTextIsEquality(ty, "boolean");
      KeywordBoolean();
    }
    else if SameText(ty, "tinyint") {
      SameTextIsEquality(ty, "tinyint");
      KeywordTinyint();
    }
    else if SameText(ty, "smallint") {
      SameTextIsEquality(ty, "smallint");
      KeywordSmallint();
    }
    else if SameText(ty, "mediumint") {
      SameTextIsEquality(ty, "mediumint");
      KeywordMediumint();
    }
    else if SameText(ty, "int") {
      SameTextIsEquality(ty, "int");
      KeywordInt();
    }
    else if SameText(ty, "integer") {
      SameTextIsEquality(ty, "integer");
      KeywordInteger();
    }
    else if SameText(ty, "bigint") {
      SameTextIsEquality(ty, "bigint");
      KeywordBigint();
    }
    else if SameText(ty, "decimal") {
      SameTextIsEquality(ty, "decimal");
      KeywordDecimal();
    }
    else if SameText(ty, "numeric") {
      SameTextIsEquality(ty, "numeric");
      KeywordNumeric();
    }
    else if SameText(ty, "float") {
      SameTextIsEquality(ty, "float");
      KeywordFloat();
    }
    else if SameText(ty, "double") {
      SameTextIsEquality(ty, "double");
      KeywordDouble();
    }
    else if SameText(ty, "date") {
      SameTextIsEquality(ty, "date");
      KeywordDate();
    }
    else if SameText(ty, "datetime") {
      SameTextIsEquality(ty, "datetime");
      KeywordDatetime();
    }
    else if SameText(ty, "timestamp") {
      SameTextIsEquality(ty, "timestamp");
      KeywordTimestamp();
    }
    else if SameText(ty, "time") {
      SameTextIsEquality(ty, "time");
      KeywordTime();
    }
    else if SameText(ty, "year") {
      SameTextIsEquality(ty, "year");
      KeywordYear();
    }
    else {
      SameTextIsEquality(ty, "json");
      KeywordJson();
    }
  }

  /** What the arm order amounts to: a keyword (compared as the whole
      lower-cased token) gets its table entry, as no prefix or suffix arm
      shadows it; any other token gets its pattern type. */
  lemma MapSqlTypeTable(sqlType: string)
    ensures var ty := ToLower(sqlType);
      MapSqlType(sqlType) == if IsKeyword(ty) then KeywordType(ty) else PatternType(ty)
  {
    var ty := ToLower(sqlType);
    if IsKeyword(ty) {
      ClassifyKeyword(ty);
    } else {
      ClassifyNonKeyword(ty);
    }
  }

  /** Any token that is neither a keyword nor hit by a prefix/suffix arm falls back to `String`. */
  lemma MapSqlTypeFallback(sqlType: string)
    requires !IsKeyword(ToLower(sqlType)) && !BytesArm(ToLower(sqlType))
    ensures MapSqlType(sqlType) == RString
  {
    MapSqlTypeTable(sqlType);
  }

  /** The classifier only looks at the lower-cased token, so tokens that
      differ only in ASCII case map alike, and lower-casing first changes nothing. */
  lemma MapSqlTypeCaseInsensitive(a: string, b: string)
    requires ToLower(a) == ToLower(b)
    ensures MapSqlType(a) == MapSqlType(b)
    ensures MapSqlType(ToLower(a)) == MapSqlType(a)
  {
    ToLowerIdempotent(a);
  }

  /** The `is_datetime` flag: the lower-cased raw type is exactly `timestamp` or `datetime`. */
  predicate IsDatetime(sqlType: string) {
    ToLower(sqlType) == "timestamp" || ToLower(sqlType) == "datetime"
  }

  /** Of the table entries, only `datetime` and `timestamp` map to `time::OffsetDateTime`. */
  lemma KeywordTypeDatetime(kw: string)
    requires IsKeyword(kw)
    ensures KeywordType(kw) == ROffsetDateTime <==> SameText(kw, "datetime") || SameText(kw, "timestamp")
  {
  }

  /** The `is_datetime` flag holds exactly when the column maps to `time::OffsetDateTime`. */
  lemma IsDatetimeMatchesType(sqlType: string)
    ensures IsDatetime(sqlType) <==> MapSqlType(sqlType) == ROffsetDateTime
  {
    var ty := ToLower(sqlType);
    MapSqlTypeTable(sqlType);
    SameTextIsEquality(ty, "datetime");
    SameTextIsEquality(ty, "timestamp");
    if IsKeyword(ty) {
      KeywordTypeDatetime(ty);
    }
  }
}
