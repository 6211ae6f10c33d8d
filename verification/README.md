# domain_codegen core, modelled in Dafny

`domain_codegen` reads one SQL `CREATE TABLE` declaration and a JSON rules
document and writes the source files of a Rust web module for that table.
It generates a model, DTOs, a repository, services, routes, handlers and SQL
queries, then the project files that wire all modules together. This project
models the deterministic core of that pipeline and proves properties of it:

- **Schema extraction** (`parse_sql_file`, module `Schema`). The input is an
  already parsed statement list. The first CREATE TABLE wins, and none at all
  is an error. Columns keep their declared order and are nullable exactly when
  they lack NOT NULL. The module and struct names default to the table name
  and its PascalCase form. The three rule lists are read from the rules entry
  keyed by the exact table name, and non-string array elements are dropped.
- **Name override and driver** (`main`, module `Driver`). A rule entry's
  string `module_name` / `struct_name` replaces the default. Without an entry
  both names are reset, which is a no-op. Generation then runs on exactly one
  schema.
- **Type and identifier mapping** (`map_sql_type`, `to_pascal_case`, modules
  `TypeMap` and `Identifiers`). `map_sql_type` is an ordered arm chain on the
  lower-cased token. It is stated as a keyword table plus pattern arms, and
  `to_pascal_case` is checked against a one-pass reference scan.
- **Field projections** (modules `Fields` and `FieldProperties`). These are
  the per-column lists the model, DTO and queries generators build: `fields`,
  `create_fields`, `update_fields`, `select_fields`, `insert_fields`, and the
  queries `update_fields`. Each is a list of typed records, filtered by the
  rule lists.
- **Template contexts** (module `Context`). These are the JSON objects handed
  to the template engine. Every field record can be read back from its
  context entry.
- **Generation plan** (`generate_code`, module `Generation`). Each table gets
  ten writes under its module directory, and four project files follow. The
  plan runs fail-fast, like the `?` operators.
- **Scenarios**: concrete instances, such as `charblob`, `setblob`, `int(11)`,
  `user_account` and the `todo` table behind the generated route tests.

The template engine is a parameter `render(template, context)` that returns
the rendered text, or `None` when the engine fails. Tokens are compared and
case-mapped as ASCII.

The model follows the code as written:

- The INSERT and UPDATE statement columns are chosen by the
  `create_special_fields` / `update_special_fields` rule lists. There is no
  fixed `{id, created_at, modified_at}` set.
- Those statement lists never add `always_include_in_dto` names back; only
  the two DTO filters do.
- The optionality of an UPDATE field depends on `always_include_in_dto`, not
  on a hard-coded `modified_by`.
- Only `timestamp`/`datetime` count as datetimes.
- `decimal`/`numeric` map to `f64`.
- `time`, `timestamptz` and parameterised keyword spellings such as `int(11)`,
  `decimal(10,2)` and `timestamp(6)` map to `String`.
- `generate_code` writes no test scaffolding.

## Model

| member | source | states |
|---|---|---|
| `Ascii.LowerChar` | src/generator.rs:159 | an ASCII upper-case letter becomes the lower-case letter 32 code points above it; every other character is kept |
| `Ascii.ToLower` | src/generator.rs:159 | the lower-cased token has the same length and no ASCII upper-case letter; each upper-case letter becomes the lower-case letter that upper-cases back to it, and every other character is unchanged |
| `Ascii.UpperChar` | src/generator.rs:151 | upper-casing a segment's first letter gives an upper-case letter that lower-cases back to it; other characters are kept |
| `Ascii.ToLowerIdempotent` | src/generator.rs:159 | lower-casing twice equals lower-casing once |
| `Ascii.StartsWith` | src/generator.rs:162 | `str::starts_with`, compared character by character; `StartsWithConcat` proves a text starts with any prefix it was built from |
| `Ascii.StartsWithConcat` | src/generator.rs:162 | `prefix + rest` starts with `prefix`, for every `prefix` and `rest` |
| `Ascii.EndsWith` | src/generator.rs:178 | `str::ends_with`, compared from the end; `EndsWithConcat` proves a text ends with any suffix it was built from |
| `Ascii.EndsWithConcat` | src/generator.rs:178 | `init + suffix` ends with `suffix`, for every `init` and `suffix` |
| `Ascii.SameTextIsEquality` | src/generator.rs:161-179 | comparing a token with an exact arm character by character is string equality |
| `Json.Get` | src/parser.rs:40 | a lookup succeeds exactly on an object that has the key, and returns that key's value |
| `Json.AsArray` | src/parser.rs:42 | `as_array` is `Some` exactly on an array value, and gives its elements |
| `Json.AsStr` | src/main.rs:39 | `as_str` is `Some` exactly on a string value, and gives its text |
| `Json.GetStr` | src/main.rs:39 | `get(..).and_then(as_str)` is `Some` exactly when the key holds a string, and gives that string |
| `Json.GetArray` | src/parser.rs:41-42 | `get(..).and_then(as_array)` is `Some` exactly when the key holds an array, and gives its elements |
| `TypeMap.Classify` | src/generator.rs:161-180 | the arm chain on a lower-cased token, computed arm by arm in source order; what it yields is stated by `ClassifyKeyword` and `ClassifyNonKeyword` |
| `TypeMap.MapSqlType` | src/generator.rs:158-181 | `map_sql_type` lower-cases the token and runs the arm chain; its results are stated by `MapSqlTypeTable`, `MapSqlTypeFallback` and `MapSqlTypeCaseInsensitive` |
| `TypeMap.IsDatetime` | src/generator.rs:259-260 | the `is_datetime` test on the lower-cased token; `IsDatetimeMatchesType` proves it holds exactly when the mapped type is `OffsetDateTime` |
| `TypeMap.TypeName` | src/generator.rs:162-180 | the thirteen type spellings `map_sql_type` returns; `TypeNameRoundTrip` proves they are distinct and read back as their type |
| `TypeMap.TypeNameRoundTrip` | src/generator.rs:162-180 | each of the thirteen Rust type spellings reads back as its type, so no two types share a spelling |
| `TypeMap.ClassifyKeyword` | src/generator.rs:163-179 | on an exact keyword, no earlier prefix/suffix arm interferes and the chain yields the keyword's table entry |
| `TypeMap.ClassifyNonKeyword` | src/generator.rs:162-180 | a token that is no exact keyword gets its pattern type: `Vec<u8>` for a byte-array arm not shadowed by the text or `enum`/`set` arm, else `String` |
| `TypeMap.MapSqlTypeTable` | src/generator.rs:158-181 | `map_sql_type` is total, and its result is the keyword table entry of the lower-cased token or its pattern type |
| `TypeMap.MapSqlTypeFallback` | src/generator.rs:180 | a lower-cased token that is neither a keyword nor hit by a byte-array arm maps to `String` |
| `TypeMap.MapSqlTypeCaseInsensitive` | src/generator.rs:159 | tokens equal up to ASCII case map alike, and lower-casing the input first changes nothing |
| `TypeMap.KeywordTypeDatetime` | src/generator.rs:173 | among the keywords, exactly `datetime` and `timestamp` map to `time::OffsetDateTime` |
| `TypeMap.IsDatetimeMatchesType` | src/generator.rs:259-261 | the `is_datetime` flag holds exactly when the column maps to `time::OffsetDateTime`, so `date` and `timestamp(6)` are not datetimes |
| `Identifiers.SplitOn` | src/generator.rs:145 | splitting on `_` gives at least one piece and no piece contains `_` |
| `Identifiers.SplitJoinRoundTrip` | src/generator.rs:145 | rejoining the pieces with `_` gives back the original name |
| `Identifiers.NonEmpty` | src/generator.rs:146 | the filter dropping empty segments; its effect on the name is stated by `ToPascalCaseMatchesScan` |
| `Identifiers.Capitalize` | src/generator.rs:147-152 | a segment keeps its length, its first character is upper-cased and the rest is unchanged |
| `Identifiers.ConcatCapitalized` | src/generator.rs:147-154 | capitalizes each kept segment and concatenates them; stated against the one-pass scan by `ToPascalCaseMatchesScan` |
| `Identifiers.ToPascalCase` | src/generator.rs:144-155 | split on `_`, drop empty segments, capitalize and concatenate; `ToPascalCaseMatchesScan`, `ToPascalCaseJoin` and `ToPascalCaseShape` state what the name is |
| `Identifiers.PascalScan` | src/generator.rs:144-155 | the reference one-pass conversion never emits `_` and is never longer than its input |
| `Identifiers.ToPascalCaseMatchesScan` | src/generator.rs:144-155 | split, drop empty pieces, capitalize and concatenate equals deleting every `_` and upper-casing each character that starts a segment |
| `Identifiers.ScanUnderscoreSplit` | src/generator.rs:145-146 | a `_` always starts a new segment, whatever precedes it |
| `Identifiers.ToPascalCaseJoin` | src/generator.rs:144-155 | the struct name of `a_b` is the struct name of `a` followed by that of `b` |
| `Identifiers.ToPascalCaseShape` | src/generator.rs:144-155 | the struct name contains no `_`, is no longer than the table name, and `""` maps to `""` |
| `Schema.IsNullable` | src/parser.rs:78-81 | a column is nullable exactly when none of its options is NOT NULL |
| `Schema.ExtractColumns` | src/parser.rs:74-88 | one column per declared column, in declared order, with name and type text copied and nullability as above |
| `Schema.StringElements` | src/parser.rs:47 | the kept strings are exactly the string elements of the array, and there are no more of them than elements |
| `Schema.StringElementsAppend` | src/parser.rs:45-48 | the string filter distributes over concatenation, so kept strings keep their relative order |
| `Schema.StringElementsSingle` | src/parser.rs:47 | a string element contributes its text and any other element contributes nothing |
| `Schema.RuleEntry` | src/parser.rs:39-40 | the rule entry exists exactly when rules are given, are an object and have a key equal to the table name |
| `Schema.RuleList` | src/parser.rs:41-70 | a rule list is `Some` exactly when that entry holds an array under the key, and then it is the array's string elements |
| `Schema.FirstCreateTable` | src/parser.rs:31-32 | `None` exactly when no statement is a CREATE TABLE, else the earliest CREATE TABLE |
| `Schema.SchemaOf` | src/parser.rs:90-98 | table name, columns, default module name `= table_name`, struct name `= to_pascal_case(table_name)`, and the three rule lists |
| `Schema.ParseSqlFile` | src/parser.rs:31-102 | an error exactly when there is no CREATE TABLE, else the schema of the first one |
| `Schema.ParseIgnoresLaterStatements` | src/parser.rs:90-98 | appending statements after a CREATE TABLE leaves the result unchanged |
| `Fields.RenderFieldType` | src/generator.rs:207-211 | the bare type or `Option<..>` around it; `RenderedOptionPrefix` and `RenderFieldTypeRoundTrip` state that the two forms are told apart and read back |
| `Fields.RenderedOptionPrefix` | src/generator.rs:254 | the rendered type starts with `Option<` exactly when the field type is the wrapped one |
| `Fields.ParseFieldType` | src/generator.rs:208 | a text that reads as a field type is that type's rendering |
| `Fields.RenderFieldTypeRoundTrip` | src/generator.rs:248-252 | rendering a field type and reading it back gives the same type |
| `Fields.Members` | src/generator.rs:271-272 | an absent rule list reads as the empty list; `FilterColumnsNothingSkipped` shows an absent skip list keeps every column |
| `Fields.Kept` | src/generator.rs:273 | a column passes when its name is not skipped or is reinstated; `FilterColumnsMembers` and `KeptNameIff` tie the kept columns to it |
| `Fields.CreateColumns` | src/generator.rs:270-274 | the create DTO's columns; `CreateFieldsMembership` states which columns they are |
| `Fields.DtoUpdateColumns` | src/generator.rs:299-303 | the update DTO's columns; `DtoUpdateFieldsMembership` states which columns they are |
| `Fields.InsertColumns` | src/generator.rs:482-485 | the INSERT statement's columns; `InsertFieldsMembership` states which columns they are |
| `Fields.QueryUpdateColumns` | src/generator.rs:498-501 | the UPDATE statement's columns; `QueryUpdateFieldsMembership` states which columns they are |
| `Fields.FilterColumns` | src/generator.rs:270-274 | the filter keeps no more columns than it gets, and every kept name passes the skip/reinstate test |
| `Fields.FilterColumnsMembers` | src/generator.rs:270-274 | a column is kept exactly when it is an input column that passes the skip/reinstate test |
| `Fields.KeptNameIff` | src/generator.rs:482-485 | an input column's name appears among the kept columns exactly when the name passes the test |
| `Fields.FilterColumnsAppend` | src/generator.rs:267-274 | the filter distributes over concatenation, so kept columns keep their order |
| `Fields.FilterColumnsNothingSkipped` | src/generator.rs:271 | with nothing to skip, every column is kept |
| `Fields.NullableType` | src/generator.rs:205-211 | the field type is the mapped type, wrapped exactly when the column is nullable |
| `Fields.ModelFields` | src/generator.rs:200-215 | one model field per column in column order: same name, the mapped type, `Option` exactly when nullable |
| `Fields.FullEntry` | src/generator.rs:246-262 | the full DTO entry's `is_optional`, read off the rendered type, equals the column's nullability; `is_datetime` is the datetime test |
| `Fields.CreateEntry` | src/generator.rs:276-291 | the create entry's `is_optional` equals the column's nullability, since no bare type begins with `Option<` |
| `Fields.DtoFields` | src/generator.rs:242-264 | one DTO field per column, in order, with the mapped type, `Option` and `is_optional` exactly when nullable, and the datetime flag |
| `Fields.CreateFields` | src/generator.rs:267-293 | one create field per column the create filter keeps, in order, typed and flagged as in the full DTO |
| `Fields.DtoUpdateEntry` | src/generator.rs:304-327 | an update DTO entry is bare, required and `always_include` exactly when the name is always included; otherwise it is `Option` and optional |
| `Fields.DtoUpdateFields` | src/generator.rs:296-328 | one update field per column the update filter keeps, in order, with the optionality given by `always_include_in_dto` |
| `Fields.SelectFields` | src/generator.rs:471-475 | every column name, in column order |
| `Fields.InsertFields` | src/generator.rs:479-491 | the names of the columns kept without reinstatement, in order; none is a create special field |
| `Fields.QueryUpdateEntry` | src/generator.rs:502-514 | an UPDATE field is optional exactly when its name is not always included, and carries the datetime flag |
| `Fields.QueryUpdateFields` | src/generator.rs:495-515 | one UPDATE field per column not in `update_special_fields`, in order, optional exactly when not always included |
| `FieldProperties.CreateFieldsMembership` | src/generator.rs:270-274 | a column is in `create_fields` exactly when its name is not a create special field or is always included; an absent list counts as empty |
| `FieldProperties.DtoUpdateFieldsMembership` | src/generator.rs:299-303 | a column is in the DTO `update_fields` exactly when its name is not an update special field or is always included |
| `FieldProperties.InsertFieldsMembership` | src/generator.rs:482-485 | a column is in `insert_fields` exactly when its name is not a create special field; always-included names are not reinstated |
| `FieldProperties.QueryUpdateFieldsMembership` | src/generator.rs:498-501 | a column is in the queries `update_fields` exactly when its name is not an update special field |
| `FieldProperties.ReinstatedOnlyInCreateDto` | src/generator.rs:273 | a name that is both a create special field and always included is in the create DTO but not in the INSERT list |
| `FieldProperties.NoCreateRulesKeepsEveryColumn` | src/generator.rs:271 | without create special fields, the create DTO list is the full DTO list and `insert_fields` is `select_fields` |
| `FieldProperties.CreateEntryIsFullEntry` | src/generator.rs:289 | the create and full DTO entries of a column coincide, although `is_optional` is computed differently |
| `Context.BoolText` | src/generator.rs:258-261 | `bool::to_string` in the contexts; `BoolTextRoundTrip` proves each flag's text reads back as that flag |
| `Context.ParseBool` | src/generator.rs:258 | a text read as a flag is that flag's `to_string` |
| `Context.BoolTextRoundTrip` | src/generator.rs:258 | a flag's `to_string` reads back as the flag |
| `Context.ModelFieldEntry` | src/generator.rs:204-213 | the model entry holds exactly `rust_type` and `name`, with the rendered type and the name |
| `Context.ModelFieldEntryRoundTrip` | src/generator.rs:204-213 | the model entry reads back as the field it came from |
| `Context.DtoFieldEntry` | src/generator.rs:256-261 | the DTO entry holds exactly `name`, `ty`, `is_optional`, `is_datetime`, the flags as `true`/`false` text |
| `Context.DtoFieldEntryRoundTrip` | src/generator.rs:256-261 | the DTO entry reads back as the field it came from |
| `Context.DtoUpdateFieldEntry` | src/generator.rs:315-325 | the update DTO entry holds exactly `name`, `ty`, `always_include`, `is_optional`, `is_datetime` |
| `Context.DtoUpdateFieldEntryRoundTrip` | src/generator.rs:315-325 | the update DTO entry reads back as the field it came from |
| `Context.InsertFieldEntry` | src/generator.rs:487-489 | an `insert_fields` entry holds only `name` |
| `Context.QueryUpdateFieldEntry` | src/generator.rs:510-512 | a queries `update_fields` entry holds exactly `name`, `is_optional`, `is_datetime` |
| `Context.QueryUpdateFieldEntryRoundTrip` | src/generator.rs:510-512 | the queries update entry reads back as the field it came from |
| `Context.ModelFieldEntries` | src/generator.rs:200-215 | one entry per model field, in order, each reading back as its field |
| `Context.DtoFieldEntries` | src/generator.rs:242-264 | one entry per DTO field, in order, each reading back as its field |
| `Context.DtoUpdateFieldEntries` | src/generator.rs:296-328 | one entry per update DTO field, in order, each reading back as its field |
| `Context.QueryUpdateFieldEntries` | src/generator.rs:495-515 | one entry per UPDATE field, in order, each reading back as its field |
| `Context.NameStrings` | src/generator.rs:471-475 | the names as JSON strings, one per name, in order |
| `Context.InsertFieldEntries` | src/generator.rs:479-491 | one `{name}` entry per name, in order |
| `Context.ModelContext` | src/generator.rs:196-217 | `model.tera` sees exactly `table_name`, `struct_name` and the model field entries |
| `Context.DtoContext` | src/generator.rs:239-329 | `dto.tera` sees exactly `struct_name` and the three field lists `fields`, `create_fields`, `update_fields` |
| `Context.QueriesContext` | src/generator.rs:466-516 | `queries.tera` sees exactly the three names and the `select_fields`, `insert_fields`, `update_fields` lists |
| `Context.RepositoryContext` | src/generator.rs:352-354 | `repository.tera` sees exactly `struct_name`, `table_name`, `module_name` |
| `Context.NamesContext` | src/generator.rs:377-379 | the service, routes, handlers and services templates see exactly `struct_name` and `module_name` |
| `Context.ModuleNames` | src/generator.rs:89-92 | the module names of all schemas, in schema order |
| `Context.ModulesContext` | src/generator.rs:131-135 | `lib`, `app` and `app_state` see exactly `modules`, the module names in schema order |
| `Context.BootstrapEntry` | src/generator.rs:64-69 | a bootstrap entry holds exactly `module` and `struct_name` |
| `Context.BootstrapContext` | src/generator.rs:62-71 | `bootstrap.tera` sees `modules`, one entry per schema in order, exactly that schema's bootstrap entry, with its module and struct name |
| `Generation.TableStep` | src/generator.rs:13-41 | each table file lies at `<module>/<relative path>` and is fixed text exactly for the two `mod.rs` files |
| `Generation.TableSteps` | src/generator.rs:11-42 | each table has ten writes |
| `Generation.TableStepsDomain` | src/generator.rs:13-25 | the first five writes of a table, in order: `model.rs`, `dto.rs`, `repository.rs` and `service.rs` rendered from their templates with the model, DTO, repository and names contexts, then the fixed `domain/mod.rs` text |
| `Generation.TableStepsWeb` | src/generator.rs:28-41 | the last five writes of a table, in order: `routes.rs`, `handlers.rs`, `services.rs` with the names context, `queries.rs` with the queries context, then the fixed module `mod.rs` text |
| `Generation.TableStepsUnderModule` | src/generator.rs:19-41 | every write of a table lies under that table's module directory |
| `Generation.ProjectSteps` | src/generator.rs:46-49 | four project-wide writes, in order: `lib.rs`, `app.rs` and `common/app_state.rs` rendered with the modules context, then `common/bootstrap.rs` with the bootstrap context |
| `Generation.AllTableSteps` | src/generator.rs:11-42 | the per-table writes number ten per table |
| `Generation.AllTableStepsAppend` | src/generator.rs:11 | the writes of two table lists run one list after the other |
| `Generation.AllTableStepsAt` | src/generator.rs:11-42 | write `j` of table `k` is step `10k + j` of the loop |
| `Generation.Plan` | src/generator.rs:11-49 | the plan has `10n + 4` steps: all table writes first, then the four project writes |
| `Generation.PlanTableFilesUnderModule` | src/generator.rs:11-42 | every file planned for table `k` lies under its module directory |
| `Generation.StepOutput` | src/generator.rs:219-222 | a write keeps its path; fixed text is always written; a render write fails exactly when rendering fails |
| `Generation.Execute` | src/generator.rs:13-49 | fail-fast: the written files are the outputs of the steps before the first failure, and the failing step is the one after them |
| `Generation.ExecuteAllSucceed` | src/generator.rs:13-51 | when every step succeeds, one file is written per step, at the step's path |
| `Generation.GenerateCode` | src/generator.rs:7-52 | runs the plan fail-fast with the given renderer; `GenerateCodeWritesPlan` states what a failure-free run writes |
| `Generation.GenerateCodeWritesPlan` | src/generator.rs:7-52 | with a renderer that never fails, `generate_code` writes `10n + 4` files, exactly at the planned paths |
| `Generation.GenerateCodeOneTable` | src/generator.rs:11-49 | for one table and a renderer that never fails, fourteen files are written and the first ten lie under the table's module directory |
| `Driver.ApplyRuleOverrides` | src/main.rs:38-48 | with an entry, each name comes from the string under its key or stays unchanged; without one, both names reset to the defaults; table name, columns and rule lists never change |
| `Driver.OverrideWithoutEntryIsNoOp` | src/main.rs:45-48 | on a freshly parsed schema the reset without a rule entry changes nothing |
| `Driver.ConfiguredSchema` | src/main.rs:35-48 | parsing fails exactly when there is no CREATE TABLE; otherwise the parsed schema with the overrides applied |
| `Driver.Run` | src/main.rs:35-50 | `Run` is `Err` exactly when there is no CREATE TABLE; otherwise it is the fail-fast outcome of generating for a one-element schema list, so a generation failure is `Ok` with `failedAt` set, where `main` panics |
| `Driver.RunReportsRenderFailure` | src/main.rs:50 | with a CREATE TABLE present and a renderer that always fails, `Run` is `Ok`, reports the first write as failed and has written nothing |
| `Driver.RunWritesOneTable` | src/main.rs:50 | with a renderer that never fails, `main` writes fourteen files, the first ten under the configured module directory |
| `Scenarios.CharBlobIsText` | src/generator.rs:162 | `charblob` is `String`: the text arm beats the `blob` suffix arm |
| `Scenarios.SetBlobIsText` | src/generator.rs:176-178 | `setblob` is `String`: the `enum`/`set` arm comes before the `blob` suffix |
| `Scenarios.LongBlobIsBytes` | src/generator.rs:178 | `LONGBLOB` is `Vec<u8>` |
| `Scenarios.ParameterisedIntFallsBack` | src/generator.rs:167 | `int(11)` is `String`, not `i32` |
| `Scenarios.TimestampWithZoneFallsBack` | src/generator.rs:173 | `timestamptz` is `String` |
| `Scenarios.DecimalWithPrecisionFallsBack` | src/generator.rs:169 | `decimal(10,2)` is `String` |
| `Scenarios.EmptyTokenFallsBack` | src/generator.rs:180 | the empty token is `String` |
| `Scenarios.UpperCaseKeyword` | src/generator.rs:159 | `TIMESTAMP` maps to `time::OffsetDateTime` and is a datetime |
| `Scenarios.UpperCaseText` | src/generator.rs:159-162 | `VARCHAR(20)` and `varchar(20)` both map to `String` |
| `Scenarios.DateIsNotDatetime` | src/generator.rs:259-261 | `date` maps to `time::Date` but is not a datetime, and `timestamp(6)` is not a datetime |
| `Scenarios.PascalCaseTodo` | src/generator.rs:144-155 | `todo` becomes `Todo` |
| `Scenarios.PascalCaseUserAccount` | src/generator.rs:144-155 | `user_account` becomes `UserAccount` |
| `Scenarios.PascalCaseDropsEmptySegments` | src/generator.rs:146 | `_a__b_` becomes `AB` |
| `Scenarios.TodoCreateDtoLacksId` | gen/tests/test_todo_routes.rs:18-26 | the `todo` create DTO has no `id` |
| `Scenarios.TodoCreateDtoLacksCreatedAt` | gen/tests/test_todo_routes.rs:18-26 | the `todo` create DTO has no `created_at` |
| `Scenarios.TodoCreateDtoLacksModifiedAt` | gen/tests/test_todo_routes.rs:18-26 | the `todo` create DTO has no `modified_at` |
| `Scenarios.TodoCreateDtoHasModifiedBy` | gen/tests/test_todo_routes.rs:25 | the `todo` create DTO has `modified_by` |
| `Scenarios.TodoUpdateDtoRequiresModifiedBy` | gen/tests/test_todo_routes.rs:109 | the `todo` update DTO has a bare, required `modified_by` |
| `Scenarios.TodoUpdateDtoHasOptionalModifiedAt` | gen/tests/test_todo_routes.rs:110 | the `todo` update DTO has an optional `modified_at` |
| `Scenarios.TodoInsertLacksModifiedAt` | src/generator.rs:479-485 | the `todo` INSERT statement does not write `modified_at` |

## Left out

- File and directory I/O is not modelled: `fs::read_to_string`, `create_dir_all` and `fs::write`, including their failures. Paths are plain strings `"<module>/<relative path>"` relative to the output directory. `Path::join` normalisation is not modelled.
- The Tera engine is a parameter. A failure of `Tera::new` is folded into the render failure of the same step.
- SQL parsing (`sqlparser`, `MySqlDialect`) is not modelled. The input is a parsed statement list, and `name.to_string()` / `data_type.to_string()` are opaque texts. Column options other than NOT NULL are one case.
- JSON decoding of the rules text and `clap` argument handling are not modelled. The `expect` panics of `main` are left out (src/main.rs:27-36 and 50). `Driver.Run` returns the parse error where `main` would panic on a failed parse, and an `Ok` outcome whose `failedAt` is set where `main` would panic on a failed generation.
- Case mapping is ASCII only. Rust's Unicode `to_lowercase` / `to_uppercase`, where one character may map to several, is not modelled.
- JSON numbers, booleans and null are one opaque case. Template contexts are JSON objects whose strings are exact.
- The repository, service, routes, handlers, services, lib, app, app_state and bootstrap generators are modelled only through their contexts and output paths; their templates are not part of this model.
- gen/tests/test_todo_routes.rs is generated output and is not modelled. Its DTO payload shapes only motivate the `todo` scenario. The scenario's table and rules do not appear in the source; they are chosen consistently with those payloads.
