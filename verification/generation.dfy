/** `generate_code`: the ordered plan of files written for a list of
    schemas, and its fail-fast execution against a template renderer. The
    renderer (template engine plus templates directory) is a parameter:
    `render(template, context)` is the rendered text, or `None` when the
    engine fails. Paths are relative to the output directory. */
module Generation {
  import opened Wrappers
  import opened Ascii
  import Json
  import opened Schema
  import opened Context

  /** Which context a template is rendered with: one of a table's
      contexts, or one of the two project-wide contexts. */
  datatype ContextSource =
    | ModelOf(s: TableSchema)
    | DtoOf(s: TableSchema)
    | RepositoryOf(s: TableSchema)
    | NamesOf(s: TableSchema)
    | QueriesOf(s: TableSchema)
    | ModulesOf(schemas: seq<TableSchema>)
    | BootstrapOf(schemas: seq<TableSchema>)

  /** The context a source stands for. */
  function ContextOf(src: ContextSource): Json.Value {
    match src
    case ModelOf(s) => ModelContext(s)
    case DtoOf(s) => DtoContext(s)
    case RepositoryOf(s) => RepositoryContext(s)
    case NamesOf(s) => NamesContext(s)
    case QueriesOf(s) => QueriesContext(s)
    case ModulesOf(schemas) => ModulesContext(schemas)
    case BootstrapOf(schemas) => BootstrapContext(schemas)
  }

  /** One write of the plan: a template rendered with a context, or fixed text. */
  datatype Step =
    | Render(path: string, template: string, source: ContextSource)
    | Fixed(path: string, contents: string)

  /** A written file. */
  datatype File = File(path: string, contents: string)

  /** What running a plan leaves behind: the files written, in order, and
      the index of the step that failed, if one did. */
  datatype Outcome = Outcome(written: seq<File>, failedAt: Option<nat>)

  /** The contents of `<module>/domain/mod.rs`. */
  const DomainModText: string := "pub mod model;\npub mod repository;\npub mod service;\n"

  /** The contents of `<module>/mod.rs`. */
  const ModuleModText: string :=
    "pub mod domain;\npub mod dto;\npub mod handlers;\npub mod queries;\npub mod routes;\npub mod services;\n"

  /** The files written for each table, in the order of the per-table loop body. */
  datatype TableFile =
    | ModelRs | DtoRs | RepositoryRs | ServiceRs | DomainModRs
    | RoutesRs | HandlersRs | ServicesRs | QueriesRs | ModRs

  const TableFiles: seq<TableFile> :=
    [ModelRs, DtoRs, RepositoryRs, ServiceRs, DomainModRs, RoutesRs, HandlersRs, ServicesRs, QueriesRs, ModRs]

  /** Where a table file lives, relative to the table's module directory. */
  function TableFilePath(f: TableFile): string {
    match f
    case ModelRs => "domain/model.rs"
    case DtoRs => "dto.rs"
    case RepositoryRs => "domain/repository.rs"
    case ServiceRs => "domain/service.rs"
    case DomainModRs => "domain/mod.rs"
    case RoutesRs => "routes.rs"
    case HandlersRs => "handlers.rs"
    case ServicesRs => "services.rs"
    case QueriesRs => "queries.rs"
    case ModRs => "mod.rs"
  }

  /** The write of one table file: which template with which context, or
      which fixed text. */
  function TableStep(s: TableSchema, f: TableFile): (r: Step)
    ensures r.path == s.moduleName + "/" + TableFilePath(f)
    ensures r.Fixed? <==> f == DomainModRs || f == ModRs
  {
    var path := s.moduleName + "/" + TableFilePath(f);
    match f
    case ModelRs => Render(path, "model.tera", ModelOf(s))
    case DtoRs => Render(path, "dto.tera", DtoOf(s))
    case RepositoryRs => Render(path, "repository.tera", RepositoryOf(s))
    case ServiceRs => Render(path, "service.tera", NamesOf(s))
    case DomainModRs => Fixed(path, DomainModText)
    case RoutesRs => Render(path, "routes.tera", NamesOf(s))
    case HandlersRs => Render(path, "handlers.tera", NamesOf(s))
    case ServicesRs => Render(path, "services.tera", NamesOf(s))
    case QueriesRs => Render(path, "queries.tera", QueriesOf(s))
    case ModRs => Fixed(path, ModuleModText)
  }

  /** The ten writes for one table, in the order of the loop body. */
  function TableSteps(s: TableSchema): (r: seq<Step>)
    ensures |r| == 10
  {
    seq(10, i requires 0 <= i < 10 => TableStep(s, TableFiles[i]))
  }

  /** The first five writes for a table: the domain files, the DTO file and
      the fixed `domain/mod.rs`. */
  lemma TableStepsDomain(s: TableSchema)
    ensures var r, m := TableSteps(s), s.moduleName + "/";
      && r[0] == Render(m + "domain/model.rs", "model.tera", ModelOf(s))
      && r[1] == Render(m + "dto.rs", "dto.tera", DtoOf(s))
      && r[2] == Render(m + "domain/repository.rs", "repository.tera", RepositoryOf(s))
      && r[3] == Render(m + "domain/service.rs", "service.tera", NamesOf(s))
      && r[4] == Fixed(m + "domain/mod.rs", DomainModText)
  {
  }

  /** The last five writes for a table: the web layer, the queries and the
      fixed module `mod.rs`. */
  lemma TableStepsWeb(s: TableSchema)
    ensures var r, m := TableSteps(s), s.moduleName + "/";
      && r[5] == Render(m + "routes.rs", "routes.tera", NamesOf(s))
      && r[6] == Render(m + "handlers.rs", "handlers.tera", NamesOf(s))
      && r[7] == Render(m + "services.rs", "services.tera", NamesOf(s))
      && r[8] == Render(m + "queries.rs", "queries.tera", QueriesOf(s))
      && r[9] == Fixed(m + "mod.rs", ModuleModText)
  {
  }

  /** Every write for a table lies under the table's module directory. */
  lemma TableStepsUnderModule(s: TableSchema, j: nat)
    requires j < 10
    ensures StartsWith(TableSteps(s)[j].path, s.moduleName + "/")
  {
    assert TableSteps(s)[j] == TableStep(s, TableFiles[j]);
    StartsWithConcat(s.moduleName + "/", TableFilePath(TableFiles[j]));
  }

  /** The four project-wide writes that follow all tables. */
  function ProjectSteps(schemas: seq<TableSchema>): (r: seq<Step>)
    ensures |r| == 4
    ensures forall j :: 0 <= j < 4 ==> r[j].Render?
    ensures r[0].path == "lib.rs" && r[0].template == "lib.tera" && r[0].source == ModulesOf(schemas)
    ensures r[1].path == "app.rs" && r[1].template == "app.tera" && r[1].source == ModulesOf(schemas)
    ensures r[2].path == "common/app_state.rs" && r[2].template == "app_state.tera"
      && r[2].source == ModulesOf(schemas)
    ensures r[3].path == "common/bootstrap.rs" && r[3].template == "bootstrap.tera"
      && r[3].source == BootstrapOf(schemas)
  {
    [ Render("lib.rs", "lib.tera", ModulesOf(schemas)),
      Render("app.rs", "app.tera", ModulesOf(schemas)),
      Render("common/app_state.rs", "app_state.tera", ModulesOf(schemas)),
      Render("common/bootstrap.rs", "bootstrap.tera", BootstrapOf(schemas))]
  }

  /** The per-table writes of `tables`, table after table. */
  function AllTableSteps(tables: seq<TableSchema>): (r: seq<Step>)
    ensures |r| == 10 * |tables|
  {
    if |tables| == 0 then [] else TableSteps(tables[0]) + AllTableSteps(tables[1..])
  }

  /** The per-table writes of two table lists run one list after the other. */
  lemma {:induction false} AllTableStepsAppend(a: seq<TableSchema>, b: seq<TableSchema>)
    ensures AllTableSteps(a + b) == AllTableSteps(a) + AllTableSteps(b)
  {
    if |a| == 0 {
      assert a + b == b;
    } else {
      var ab := a + b;
      assert ab[0] == a[0];
      assert ab[1..] == a[1..] + b;
      calc {
        AllTableSteps(ab);
        TableSteps(ab[0]) + AllTableSteps(ab[1..]);
        TableSteps(a[0]) + AllTableSteps(a[1..] + b);
        { AllTableStepsAppend(a[1..], b); }
        TableSteps(a[0]) + (AllTableSteps(a[1..]) + AllTableSteps(b));
        (TableSteps(a[0]) + AllTableSteps(a[1..])) + AllTableSteps(b);
        AllTableSteps(a) + AllTableSteps(b);
      }
    }
  }

  /** The write `j` of table `k` is step `10 * k + j`. */
  lemma {:induction false} AllTableStepsAt(tables: seq<TableSchema>, k: nat, j: nat)
    requires k < |tables| && j < 10
    ensures 10 * k + j < |AllTableSteps(tables)| && AllTableSteps(tables)[10 * k + j] == TableSteps(tables[k])[j]
  {
    var head, rest := TableSteps(tables[0]), AllTableSteps(tables[1..]);
    assert AllTableSteps(tables) == head + rest;
    if k > 0 {
      AllTableStepsAt(tables[1..], k - 1, j);
      assert tables[1..][k - 1] == tables[k];
      assert (head + rest)[10 * k + j] == rest[10 * (k - 1) + j];
    }
  }

  /** The whole plan of `generate_code`: every table's ten writes, then the
      four project-wide writes. */
  function Plan(schemas: seq<TableSchema>): (r: seq<Step>)
    ensures |r| == 10 * |schemas| + 4
    ensures r[..10 * |schemas|] == AllTableSteps(schemas)
    ensures r[10 * |schemas|..] == ProjectSteps(schemas)
  {
    AllTableSteps(schemas) + ProjectSteps(schemas)
  }

  /** Every file planned for table `k` lies under that table's module directory. */
  lemma PlanTableFilesUnderModule(schemas: seq<TableSchema>, k: nat, j: nat)
    requires k < |schemas| && j < 10
    ensures var plan := Plan(schemas);
      10 * k + j < |plan| && StartsWith(plan[10 * k + j].path, schemas[k].moduleName + "/")
  {
    var plan := Plan(schemas);
    AllTableStepsAt(schemas, k, j);
    TableStepsUnderModule(schemas[k], j);
  }

  /** The file one step writes, or `None` when rendering it fails. Fixed
      text is always written. */
  function StepOutput(step: Step, render: (string, Json.Value) -> Option<string>): (r: Option<File>)
    ensures r.Some? ==> r.value.path == step.path
    ensures step.Fixed? ==> r == Some(File(step.path, step.contents))
    ensures step.Render? ==> (r.None? <==> render(step.template, ContextOf(step.source)).None?)
  {
    match step
    case Fixed(path, contents) => Some(File(path, contents))
    case Render(path, template, source) =>
      match render(template, ContextOf(source))
      case Some(text) => Some(File(path, text))
      case None => None
  }

  /** Runs the steps in order and stops at the first failure (the `?`
      operators): the files written are the outputs of the steps before
      the failing one, and nothing after it is attempted. */
  function Execute(steps: seq<Step>, render: (string, Json.Value) -> Option<string>): (o: Outcome)
    ensures |o.written| <= |steps|
    ensures forall i :: 0 <= i < |o.written| ==> StepOutput(steps[i], render) == Some(o.written[i])
    ensures o.failedAt.None? <==> |o.written| == |steps|
    ensures o.failedAt.Some? ==> o.failedAt.value == |o.written| && StepOutput(steps[|o.written|], render).None?
  {
    if |steps| == 0 then Outcome([], None)
    else
      match StepOutput(steps[0], render)
      case None => Outcome([], Some(0))
      case Some(f) =>
        var rest := Execute(steps[1..], render);
        Outcome([f] + rest.written, if rest.failedAt.None? then None else Some(rest.failedAt.value + 1))
  }

  /** `generate_code`. */
  function GenerateCode(schemas: seq<TableSchema>, render: (string, Json.Value) -> Option<string>): Outcome {
    Execute(Plan(schemas), render)
  }

  /** A failure-free run writes one file per step, at the step's path. */
  lemma ExecuteAllSucceed(steps: seq<Step>, render: (string, Json.Value) -> Option<string>)
    requires forall i :: 0 <= i < |steps| ==> StepOutput(steps[i], render).Some?
    ensures var o := Execute(steps, render);
      && o.failedAt.None? && |o.written| == |steps|
      && forall i :: 0 <= i < |steps| ==> o.written[i].path == steps[i].path
  {
  }

  /** With a renderer that never fails, `generate_code` writes exactly the
      planned files, one per step and at the step's path: ten per table,
      then the four project files. */
  lemma GenerateCodeWritesPlan(schemas: seq<TableSchema>, render: (string, Json.Value) -> Option<string>)
    requires forall t, c :: render(t, c).Some?
    ensures var o, plan := GenerateCode(schemas, render), Plan(schemas);
      && o.failedAt.None?
      && |o.written| == 10 * |schemas| + 4
      && forall i :: 0 <= i < |plan| ==> o.written[i].path == plan[i].path
  {
    var plan := Plan(schemas);
    forall i | 0 <= i < |plan|
      ensures StepOutput(plan[i], render).Some?
    {
      if plan[i].Render? {
        assert render(plan[i].template, ContextOf(plan[i].source)).Some?;
      }
    }
    ExecuteAllSucceed(plan, render);
  }

  /** Generating for one table with a renderer that never fails writes
      fourteen files, the first ten under the table's module directory. */
  lemma GenerateCodeOneTable(s: TableSchema, render: (string, Json.Value) -> Option<string>)
    requires forall t, c :: render(t, c).Some?
    ensures var o := GenerateCode([s], render);
      && o.failedAt.None? && |o.written| == 14
      && forall j :: 0 <= j < 10 ==> StartsWith(o.written[j].path, s.moduleName + "/")
  {
    var plan := Plan([s]);
    GenerateCodeWritesPlan([s], render);
    forall j | 0 <= j < 10
      ensures StartsWith(GenerateCode([s], render).written[j].path, s.moduleName + "/")
    {
      PlanTableFilesUnderModule([s], 0, j);
      assert GenerateCode([s], render).written[j].path == plan[j].path;
    }
  }
}
