/**
 * The task file (`Makefile.toml`) the generator emits for the external task
 * runner: an environment of fifteen string entries, some of which point at
 * others through `${NAME}` tokens, and a catalog of named tasks wired by
 * their dependency lists.
 */
module Makefiles {
  import opened Wrappers
  import opened Placeholders
  import opened FileSystems
  import opened Cli

  datatype TomlSerError = TomlSerError(message: string)

  datatype MakefileGenerationError =
    | EnvMissingKey(key: string)
    | Io(io: IoError)
    | CargoConfig(cargo: CargoConfigError)
    | Parameter(parameter: ParameterError)
    | SerdeYaml(yaml: SerdeYamlError)
    | TomlSer(toml: TomlSerError)

  // ---------------------------------------------------------------------------
  // Environment
  // ---------------------------------------------------------------------------

  /** Default config file name of the OpenAPI generator. */
  const OPEN_API_GENERATOR_CONFIG_FILE: string := "generator_config.yaml"
  /** Default download URL of the OpenAPI generator CLI script. */
  const OPEN_API_GENERATOR_CLI_URL: string :=
    "https://raw.githubusercontent.com/" + "OpenAPITools/openapi-generator/"
    + "master/bin/utils/" + "openapi-generator-cli.sh"
  /** Default local directory of the OpenAPI generator CLI. */
  const OPEN_API_GENERATOR_CLI_SUBDIR: string := "bin/openapitools"
  /** Default local executable name of the OpenAPI generator CLI. */
  const OPEN_API_GENERATOR_CLI_SCRIPT: string := "openapi-generator-cli"
  /** Name of the emitted task file. */
  const MAKEFILE_NAME: string := "Makefile.toml"

  /** The `[env]` section of the task file; every entry is a plain string value. */
  datatype MakefileEnv = MakefileEnv(
    apiUrl: string,
    apiName: string,
    libName: string,
    outputDir: string,
    outputTempDir: string,
    openApiGeneratorCliUrl: string,
    openApiGeneratorCliSubdir: string,
    openApiGeneratorCliPath: string,
    openApiGeneratorCliScript: string,
    openApiGeneratorConfigFile: string,
    openApiGeneratorConfigPath: string,
    specFileDownloadDir: string,
    specFileName: string,
    specFilePath: string,
    specFileUrl: string)

  /** The entries that point at other entries, as templates over entry names. */
  const CLI_PATH_TEMPLATE: Template :=
    [Ref("OPEN_API_GENERATOR_CLI_SUBDIR"), Lit("/"), Ref("OPEN_API_GENERATOR_CLI_SCRIPT")]
  const CONFIG_PATH_TEMPLATE: Template := [Ref("OPEN_API_GENERATOR_CONFIG_FILE")]
  const SPEC_DOWNLOAD_DIR_TEMPLATE: Template := [Ref("OUTPUT_TEMP_DIR"), Lit("/specdl")]
  const SPEC_PATH_TEMPLATE: Template := [Ref("SPEC_FILE_NAME")]

  /** `MakefileEnv::try_from`: fails only when the spec file name cannot be resolved. */
  function MakefileEnvFrom(cli: Cli): (r: Result<MakefileEnv, MakefileGenerationError>)
    ensures r.Success? <==> cli.specFile.Success?
    ensures r.Failure? ==> r.error == Parameter(cli.specFile.error)
  {
    match cli.specFile
    case Failure(e) => Failure(Parameter(e))
    case Success(spec) =>
      Success(MakefileEnv(
        apiUrl := cli.apiUrl,
        apiName := cli.apiName,
        libName := cli.libName,
        outputDir := ".",
        outputTempDir := "./" + cli.tempDir,
        openApiGeneratorCliUrl := OPEN_API_GENERATOR_CLI_URL,
        openApiGeneratorCliSubdir := OPEN_API_GENERATOR_CLI_SUBDIR,
        openApiGeneratorCliPath := Render(CLI_PATH_TEMPLATE),
        openApiGeneratorCliScript := OPEN_API_GENERATOR_CLI_SCRIPT,
        openApiGeneratorConfigFile := OPEN_API_GENERATOR_CONFIG_FILE,
        openApiGeneratorConfigPath := Render(CONFIG_PATH_TEMPLATE),
        specFileDownloadDir := Render(SPEC_DOWNLOAD_DIR_TEMPLATE),
        specFileName := spec.name,
        specFilePath := Render(SPEC_PATH_TEMPLATE),
        specFileUrl := cli.apiSpecUrl.GetOr("")))
  }

  /** The entry names of the `[env]` section: the field names in SCREAMING_SNAKE_CASE. */
  const ENV_KEYS: set<string> := {
    "API_URL", "API_NAME", "LIB_NAME", "OUTPUT_DIR", "OUTPUT_TEMP_DIR",
    "OPEN_API_GENERATOR_CLI_URL", "OPEN_API_GENERATOR_CLI_SUBDIR",
    "OPEN_API_GENERATOR_CLI_PATH", "OPEN_API_GENERATOR_CLI_SCRIPT",
    "OPEN_API_GENERATOR_CONFIG_FILE", "OPEN_API_GENERATOR_CONFIG_PATH",
    "SPEC_FILE_DOWNLOAD_DIR", "SPEC_FILE_NAME", "SPEC_FILE_PATH", "SPEC_FILE_URL"
  }

  /** The entries whose values are copied from the command line. */
  const CLI_VALUED_KEYS: set<string> := {"API_URL", "API_NAME", "LIB_NAME", "SPEC_FILE_NAME", "SPEC_FILE_URL"}

  /** The `[env]` section as the task file carries it: entry name to value. */
  function EnvEntries(env: MakefileEnv): (e: map<string, string>)
    ensures e.Keys == ENV_KEYS
  {
    map[
      "API_URL" := env.apiUrl,
      "API_NAME" := env.apiName,
      "LIB_NAME" := env.libName,
      "OUTPUT_DIR" := env.outputDir,
      "OUTPUT_TEMP_DIR" := env.outputTempDir,
      "OPEN_API_GENERATOR_CLI_URL" := env.openApiGeneratorCliUrl,
      "OPEN_API_GENERATOR_CLI_SUBDIR" := env.openApiGeneratorCliSubdir,
      "OPEN_API_GENERATOR_CLI_PATH" := env.openApiGeneratorCliPath,
      "OPEN_API_GENERATOR_CLI_SCRIPT" := env.openApiGeneratorCliScript,
      "OPEN_API_GENERATOR_CONFIG_FILE" := env.openApiGeneratorConfigFile,
      "OPEN_API_GENERATOR_CONFIG_PATH" := env.openApiGeneratorConfigPath,
      "SPEC_FILE_DOWNLOAD_DIR" := env.specFileDownloadDir,
      "SPEC_FILE_NAME" := env.specFileName,
      "SPEC_FILE_PATH" := env.specFilePath,
      "SPEC_FILE_URL" := env.specFileUrl
    ]
  }

  // ---------------------------------------------------------------------------
  // Tasks
  // ---------------------------------------------------------------------------

  /** A task of the runner, with the fields the catalog sets; every other field is left unset. */
  datatype Task = Task(
    description: Option<string>,
    command: Option<string>,
    args: Option<seq<string>>,
    dependencies: Option<seq<TaskName>>,
    conditionScript: Option<seq<string>>,
    scriptRunner: Option<string>,
    script: Option<ScriptValue>)

  /**
   * A task's script body: a text of its own, or the interactive installer
   * shell script of the OpenAPI generator CLI, which is kept opaque.
   */
  datatype ScriptValue = SingleLine(text: string) | OpenApiCliInstaller

  /** `Task::default()`: nothing set. */
  const EMPTY_TASK: Task := Task(None, None, None, None, None, None, None)

  /**
   * The names of the catalog's tasks. The task file keys each task by the
   * text `NameText` gives; the names are distinct texts (`NameTextInjective`),
   * so keying by the name itself loses nothing.
   */
  datatype TaskName =
    | CargoFixGenerated
    | CrateScaffold
    | GenerateAll
    | LibCodeGenerate
    | LibCodeGenerateDryRun
    | OpenapiCliCheck
    | OpenapiCliBashInstall
    | OutputDirClean
    | OutputDirCreate
    | SpecDownload
    | SpecDownloadDefault

  /** The key under which the task file stores a task. */
  function NameText(n: TaskName): string {
    match n
    case CargoFixGenerated => "cargo-fix-generated"
    case CrateScaffold => "crate-scaffold"
    case GenerateAll => "generate-all"
    case LibCodeGenerate => "lib-code-generate"
    case LibCodeGenerateDryRun => "lib-code-generate" + "-dry-run"
    case OpenapiCliCheck => "openapi-cli-check"
    case OpenapiCliBashInstall => "openapi-cli-bash-install"
    case OutputDirClean => "output-dir-clean"
    case OutputDirCreate => "output-dir-create"
    case SpecDownload => "spec-download"
    case SpecDownloadDefault => "spec-download-default"
  }

  datatype NamedTask = NamedTask(name: TaskName, task: Task)

  /** The options every code generation run passes to the OpenAPI generator CLI. */
  const CODE_GENERATION_OPTS: seq<string> := [
    "generate",
    "--generator-name", "rust",
    "--output", Token("OUTPUT_DIR"),
    "--input-spec", Token("SPEC_FILE_PATH"),
    "--config", Token("OPEN_API_GENERATOR_CONFIG_PATH")
  ]

  /** The condition script of the code generation tasks, one trimmed line per element. */
  const CLI_CHECK_CONDITION_SCRIPT: seq<string> := [
    "#!/bin/bash",
    "# check if openapi cli " + "command exists",
    "if command -v " + Token("OPEN_API_GENERATOR_CLI_SCRIPT") + " >& /dev/null ;  then",
    "echo \"Found OpenAPI CLI command.\"",
    "exit 0",
    "else",
    "echo \"Missing OpenAPI CLI command. " + "Try running `cargo make " + "openapi-cli-bash-install`\"",
    "exit 1",
    "fi"
  ]

  /** Names bound in the `generate-all` program template. */
  const CRATE_NAME_REF: string := "this_crate_name"
  const CRATE_VER_REF: string := "this_crate_ver"
  const CONFIGURATOR_YAML_REF: string := "configurator_yaml"

  /**
   * The program `generate-all` runs with the `@rust` runner, one trimmed line
   * per line: it pulls in this crate at its own version and replays the
   * configurator's YAML to update the generated crate's manifest.
   */
  const GENERATE_ALL_PROGRAM: Template := [
    Lit("//! ```cargo\n//! [dependencies]\n//! "),
    Ref(CRATE_NAME_REF),
    Lit(" = { version = \""),
    Ref(CRATE_VER_REF),
    Lit("\" }\n//! serde_yaml = { version = \"0.9.19\" }\n"
      + "//! tokio = { version = \"1.26.0\", features = [\"full\"] }\n//! ```\nuse "),
    Ref(CRATE_NAME_REF),
    Lit("::generate{ cli::CLIError, cargos };\n#[tokio::main]\n"
      + "fn main() -> Result<(), CLIError>  {\nlet configurator_yaml: &'static str = \""),
    Ref(CONFIGURATOR_YAML_REF),
    Lit("\";\nlet cargo_configurator: cargos::CargoConfigurator = serde_yaml::from_str(configurator_yaml)?;\n"
      + "cargo_configurator.update_cargo_toml().await?;\nOk(())\n}")
  ]

  function GenerateAllBindings(c: CargoConfigurator, yaml: string): map<string, string> {
    map[CRATE_NAME_REF := c.thisCrateName, CRATE_VER_REF := c.thisCrateVer, CONFIGURATOR_YAML_REF := yaml]
  }

  /**
   * The task descriptions and argument lists, as the task file carries them,
   * with every `${NAME}` token written through `Token` (long texts are
   * written in pieces).
   */
  const CARGO_FIX_DESCRIPTION: string := "Fix " + Token("LIB_NAME") + " project generated code'."
  const CARGO_FIX_ARGS: seq<string> :=
    ["fix", "--broken-code", "--allow-dirty", "--all-targets", "--all-features", "--verbose", "--verbose"]
  const CRATE_SCAFFOLD_DESCRIPTION: string := "Setup " + Token("LIB_NAME") + " project'."
  const GENERATE_ALL_DESCRIPTION: string := "Generate " + Token("LIB_NAME") + " code and try to get it up to par"
  const LIB_CODE_GENERATE_DESCRIPTION: string := "Generate " + Token("LIB_NAME") + " code"
  const LIB_CODE_GENERATE_COMMAND: string := Token("OPEN_API_GENERATOR_CLI_SCRIPT")
  const OPENAPI_CLI_CHECK_DESCRIPTION: string := "Check that openapi cli " + "generator tool is installed"
  const OPENAPI_CLI_CHECK_ARGS: seq<string> := ["-v", Token("OPEN_API_GENERATOR_CLI_SCRIPT")]
  const OPENAPI_CLI_INSTALL_DESCRIPTION: string := "Install Open API generator CLI'."
  const OUTPUT_DIR_CLEAN_DESCRIPTION: string :=
    "Setup " + Token("LIB_NAME") + " output dir at " + Token("OUTPUT_DIR") + "'."
  const OUTPUT_DIR_CLEAN_ARGS: seq<string> := ["-rf", Token("OUTPUT_DIR") + "/*"]
  const OUTPUT_DIR_CREATE_DESCRIPTION: string :=
    "Create " + Token("LIB_NAME") + " output dir at " + Token("OUTPUT_DIR") + "'."
  const SPEC_DOWNLOAD_DEFAULT_DESCRIPTION: string :=
    "Downloads " + Token("API_NAME") + " Open API specification from '" + Token("API_URL") + "'."
  const SPEC_DOWNLOAD_DEFAULT_ARGS: seq<string> := [Token("SPEC_FILE_URL"), "-O", Token("SPEC_FILE_PATH")]
  const SPEC_DOWNLOAD_DESCRIPTION: string :=
    "Downloads " + Token("API_NAME") + (" Open API specification " + "from specified vararg'.")

  /** `${@}` is the runner's own token for the arguments a task is invoked with, not an environment entry. */
  const RUNNER_ARGS_NAME: string := "@"
  const SPEC_DOWNLOAD_ARGS: seq<string> := [Token(RUNNER_ARGS_NAME), "-O", Token("SPEC_FILE_PATH")]

  /** Every `${NAME}` token in `s` names an entry of the `[env]` section. */
  predicate RefersToEnv(s: string) {
    forall n :: n in Tokens(s) ==> n in ENV_KEYS
  }

  /**
   * Every token in the texts of a task the runner substitutes (description,
   * command, arguments, condition script) names an `[env]` entry.
   */
  predicate TaskRefersToEnv(t: Task) {
    && (t.description.Some? ==> RefersToEnv(t.description.value))
    && (t.command.Some? ==> RefersToEnv(t.command.value))
    && (t.args.Some? ==> forall i :: 0 <= i < |t.args.value| ==> RefersToEnv(t.args.value[i]))
    && (t.conditionScript.Some? ==>
          forall i :: 0 <= i < |t.conditionScript.value| ==> RefersToEnv(t.conditionScript.value[i]))
  }

  /** `make_cargo_fix_task` */
  function MakeCargoFixTask(): NamedTask {
    NamedTask(CargoFixGenerated, EMPTY_TASK.(
      description := Some(CARGO_FIX_DESCRIPTION),
      command := Some("cargo"),
      args := Some(CARGO_FIX_ARGS)))
  }

  /** `make_crate_scaffold_task`: no command of its own, only the two output directory tasks. */
  function MakeCrateScaffoldTask(): NamedTask {
    NamedTask(CrateScaffold, EMPTY_TASK.(
      description := Some(CRATE_SCAFFOLD_DESCRIPTION),
      dependencies := Some([OutputDirCreate, OutputDirClean])))
  }

  /**
   * `make_generate_all_task`: the one constructor that can fail, first on the
   * configurator, then on its YAML serialization.
   */
  function MakeGenerateAllTask(cli: Cli): (r: Result<NamedTask, MakefileGenerationError>)
    ensures r.Success? <==> cli.cargoConfigurator.Success? && cli.cargoConfigurator.value.yaml.Success?
    ensures cli.cargoConfigurator.Failure? ==> r == Failure(CargoConfig(cli.cargoConfigurator.error))
    ensures cli.cargoConfigurator.Success? && cli.cargoConfigurator.value.yaml.Failure? ==>
      r == Failure(SerdeYaml(cli.cargoConfigurator.value.yaml.error))
    ensures r.Success? ==> r.value.name == GenerateAll && r.value.task.scriptRunner == Some("@rust")
    ensures r.Success? ==> r.value.task.dependencies == Some([LibCodeGenerate, CargoFixGenerated])
  {
    match cli.cargoConfigurator
    case Failure(e) => Failure(CargoConfig(e))
    case Success(c) =>
      match c.yaml
      case Failure(e) => Failure(SerdeYaml(e))
      case Success(yaml) =>
        assert Bound(GENERATE_ALL_PROGRAM, GenerateAllBindings(c, yaml));
        Success(NamedTask(GenerateAll, EMPTY_TASK.(
          description := Some(GENERATE_ALL_DESCRIPTION),
          dependencies := Some([LibCodeGenerate, CargoFixGenerated]),
          scriptRunner := Some("@rust"),
          script := Some(SingleLine(Fill(GENERATE_ALL_PROGRAM, GenerateAllBindings(c, yaml)))))))
  }

  /**
   * `make_lib_code_generator_task`: only `Some(true)` selects the dry run,
   * which appends `--dry-run` to the options and `-dry-run` to the name.
   */
  function MakeLibCodeGeneratorTask(isDryRun: Option<bool>): (r: NamedTask)
    ensures isDryRun == Some(true) ==>
      r.name == LibCodeGenerateDryRun && r.task.args == Some(CODE_GENERATION_OPTS + ["--dry-run"])
    ensures isDryRun != Some(true) ==>
      r.name == LibCodeGenerate && r.task.args == Some(CODE_GENERATION_OPTS)
  {
    var dry := isDryRun == Some(true);
    var args := if dry then CODE_GENERATION_OPTS + ["--dry-run"] else CODE_GENERATION_OPTS;
    var name := if dry then LibCodeGenerateDryRun else LibCodeGenerate;
    NamedTask(name, EMPTY_TASK.(
      description := Some(LIB_CODE_GENERATE_DESCRIPTION),
      conditionScript := Some(CLI_CHECK_CONDITION_SCRIPT),
      command := Some(LIB_CODE_GENERATE_COMMAND),
      args := Some(args)))
  }

  /** `make_openapi_cli_check_task` */
  function MakeOpenapiCliCheckTask(): NamedTask {
    NamedTask(OpenapiCliCheck, EMPTY_TASK.(
      description := Some(OPENAPI_CLI_CHECK_DESCRIPTION),
      command := Some("command"),
      args := Some(OPENAPI_CLI_CHECK_ARGS)))
  }

  /** `make_openapi_cli_install_task` */
  function MakeOpenapiCliInstallTask(): NamedTask {
    NamedTask(OpenapiCliBashInstall, EMPTY_TASK.(
      description := Some(OPENAPI_CLI_INSTALL_DESCRIPTION),
      script := Some(OpenApiCliInstaller)))
  }

  /** `make_output_dir_clean_task` */
  function MakeOutputDirCleanTask(): NamedTask {
    NamedTask(OutputDirClean, EMPTY_TASK.(
      description := Some(OUTPUT_DIR_CLEAN_DESCRIPTION),
      command := Some("rm"),
      args := Some(OUTPUT_DIR_CLEAN_ARGS)))
  }

  /** `make_output_dir_create_task` */
  function MakeOutputDirCreateTask(): NamedTask {
    NamedTask(OutputDirCreate, EMPTY_TASK.(
      description := Some(OUTPUT_DIR_CREATE_DESCRIPTION),
      command := Some("mkdir")))
  }

  /** `make_spec_download_default_task` */
  function MakeSpecDownloadDefaultTask(): NamedTask {
    NamedTask(SpecDownloadDefault, EMPTY_TASK.(
      description := Some(SPEC_DOWNLOAD_DEFAULT_DESCRIPTION),
      command := Some("wget"),
      args := Some(SPEC_DOWNLOAD_DEFAULT_ARGS)))
  }

  /**
   * `make_spec_download_task`: the URL is the runner's own `${@}` token, the
   * arguments the task is invoked with; every other token names an `[env]` entry.
   */
  function MakeSpecDownloadTask(): NamedTask {
    NamedTask(SpecDownload, EMPTY_TASK.(
      description := Some(SPEC_DOWNLOAD_DESCRIPTION),
      command := Some("wget"),
      args := Some(SPEC_DOWNLOAD_ARGS)))
  }

  // ---------------------------------------------------------------------------
  // The catalog
  // ---------------------------------------------------------------------------

  /** The vector `MakefileSpec::try_from` fills, in its order, given the built `generate-all` task. */
  function NamedTasks(cli: Cli, generateAll: NamedTask): seq<NamedTask> {
    [
      MakeCargoFixTask(),
      MakeCrateScaffoldTask(),
      generateAll,
      MakeLibCodeGeneratorTask(None),
      MakeLibCodeGeneratorTask(Some(true)),
      MakeOpenapiCliCheckTask(),
      MakeOpenapiCliInstallTask(),
      MakeOutputDirCleanTask(),
      MakeOutputDirCreateTask(),
      MakeSpecDownloadTask()
    ] + (if cli.apiSpecUrl.Some? then [MakeSpecDownloadDefaultTask()] else [])
  }

  /** `HashMap::from_iter`: inserted in order, a later task replaces an earlier one of the same name. */
  function TaskMap(named: seq<NamedTask>): map<TaskName, Task> {
    if named == [] then map[]
    else TaskMap(named[..|named| - 1])[named[|named| - 1].name := named[|named| - 1].task]
  }

  function Names(named: seq<NamedTask>): set<TaskName> {
    set i | 0 <= i < |named| :: named[i].name
  }

  predicate DistinctNames(named: seq<NamedTask>) {
    forall i, j :: 0 <= i < j < |named| ==> named[i].name != named[j].name
  }

  /** The names the catalog always holds. */
  const BASE_TASK_NAMES: set<TaskName> := {
    CargoFixGenerated, CrateScaffold, GenerateAll, LibCodeGenerate, LibCodeGenerateDryRun,
    OpenapiCliCheck, OpenapiCliBashInstall, OutputDirClean, OutputDirCreate, SpecDownload
  }

  /** The default download is the one name outside the base names. */
  lemma DefaultNotBase()
    ensures SpecDownloadDefault !in BASE_TASK_NAMES
    ensures forall n :: n != SpecDownloadDefault ==> n in BASE_TASK_NAMES
  {
  }

  /** Every dependency a task names is a task of the same map. */
  predicate DependenciesExist(tasks: map<TaskName, Task>) {
    forall k :: k in tasks && tasks[k].dependencies.Some? ==>
      forall d :: d in tasks[k].dependencies.value ==> d in tasks
  }

  /** The task file: its environment and its tasks by name. */
  datatype MakefileSpec = MakefileSpec(env: MakefileEnv, tasks: map<TaskName, Task>)

  /** What `MakefileSpec::try_from` builds: the environment first, then the tasks. */
  function MakefileSpecFrom(cli: Cli): Result<MakefileSpec, MakefileGenerationError> {
    match MakefileEnvFrom(cli)
    case Failure(e) => Failure(e)
    case Success(env) =>
      match MakeGenerateAllTask(cli)
      case Failure(e) => Failure(e)
      case Success(g) => Success(MakefileSpec(env, TaskMap(NamedTasks(cli, g))))
  }

  // ---------------------------------------------------------------------------
  // Properties of the catalog
  // ---------------------------------------------------------------------------

  /** The map holds exactly the names of the inserted tasks. */
  lemma {:induction false} TaskMapKeys(named: seq<NamedTask>)
    ensures TaskMap(named).Keys == Names(named)
  {
    if named != [] {
      var init := named[..|named| - 1];
      TaskMapKeys(init);
      assert Names(named) == Names(init) + {named[|named| - 1].name} by {
        forall n | n in Names(named) ensures n in Names(init) + {named[|named| - 1].name} {
          var i :| 0 <= i < |named| && named[i].name == n;
          if i < |named| - 1 {
            assert init[i] == named[i];
          }
        }
        forall n | n in Names(init) ensures n in Names(named) {
          var i :| 0 <= i < |init| && init[i].name == n;
          assert named[i] == init[i];
        }
      }
    }
  }

  /** With distinct names no insertion replaces another: each task is found under its own name. */
  lemma {:induction false} TaskMapLookup(named: seq<NamedTask>, i: nat)
    requires DistinctNames(named) && i < |named|
    ensures named[i].name in TaskMap(named) && TaskMap(named)[named[i].name] == named[i].task
  {
    var last := |named| - 1;
    if i < last {
      var init := named[..last];
      assert init[i] == named[i];
      assert DistinctNames(init) by {
        forall a, b | 0 <= a < b < |init| ensures init[a].name != init[b].name {
          assert init[a] == named[a] && init[b] == named[b];
        }
      }
      TaskMapLookup(init, i);
      assert named[i].name != named[last].name;
    }
  }

  /** With distinct names the map has as many entries as the vector had tasks. */
  lemma {:induction false} TaskMapSize(named: seq<NamedTask>)
    requires DistinctNames(named)
    ensures |TaskMap(named)| == |named|
  {
    if named != [] {
      var last := |named| - 1;
      var init := named[..last];
      assert DistinctNames(init) by {
        forall a, b | 0 <= a < b < |init| ensures init[a].name != init[b].name {
          assert init[a] == named[a] && init[b] == named[b];
        }
      }
      TaskMapSize(init);
      TaskMapKeys(init);
      assert named[last].name !in TaskMap(init) by {
        forall j | 0 <= j < |init| ensures init[j].name != named[last].name {
          assert init[j] == named[j];
        }
      }
    }
  }

  /** No two task names are spelled alike in the task file. */
  lemma NameTextInjective(a: TaskName, b: TaskName)
    ensures NameText(a) == NameText(b) ==> a == b
  {
    if a != b {
      var ta, tb := NameText(a), NameText(b);
      assert |ta| != |tb| || ta[0] != tb[0] || ta[1] != tb[1];
    }
  }

  /** The order in which `MakefileSpec::try_from` pushes the tasks. */
  const CATALOG_ORDER: seq<TaskName> := [
    CargoFixGenerated, CrateScaffold, GenerateAll, LibCodeGenerate, LibCodeGenerateDryRun,
    OpenapiCliCheck, OpenapiCliBashInstall, OutputDirClean, OutputDirCreate, SpecDownload,
    SpecDownloadDefault]

  /** The catalog pushes its tasks in `CATALOG_ORDER`, the last one only with a default spec URL. */
  lemma CatalogOrder(cli: Cli, g: NamedTask)
    requires g.name == GenerateAll
    ensures |NamedTasks(cli, g)| == if cli.apiSpecUrl.Some? then 11 else 10
    ensures forall i :: 0 <= i < |NamedTasks(cli, g)| ==> NamedTasks(cli, g)[i].name == CATALOG_ORDER[i]
  {
  }

  /** The position of each name in `CATALOG_ORDER`. */
  function Rank(n: TaskName): nat {
    match n
    case CargoFixGenerated => 0
    case CrateScaffold => 1
    case GenerateAll => 2
    case LibCodeGenerate => 3
    case LibCodeGenerateDryRun => 4
    case OpenapiCliCheck => 5
    case OpenapiCliBashInstall => 6
    case OutputDirClean => 7
    case OutputDirCreate => 8
    case SpecDownload => 9
    case SpecDownloadDefault => 10
  }

  /** `Rank` and `CATALOG_ORDER` are inverse: every name appears in the order exactly once. */
  lemma RankIsPosition()
    ensures forall i :: 0 <= i < |CATALOG_ORDER| ==> Rank(CATALOG_ORDER[i]) == i
    ensures forall n :: Rank(n) < |CATALOG_ORDER| && CATALOG_ORDER[Rank(n)] == n
  {
  }

  /** A vector pushed in catalog order has distinct names, and they are the base names plus perhaps the default download. */
  lemma {:induction false} NamesInOrder(named: seq<NamedTask>, withDefault: bool)
    requires |named| == 10 || |named| == 11
    requires withDefault <==> |named| == 11
    requires forall i :: 0 <= i < |named| ==> named[i].name == CATALOG_ORDER[i]
    ensures DistinctNames(named)
    ensures Names(named) == BASE_TASK_NAMES + (if withDefault then {SpecDownloadDefault} else {})
  {
    RankIsPosition();
    var expected := BASE_TASK_NAMES + (if withDefault then {SpecDownloadDefault} else {});
    forall n | n in Names(named) ensures n in expected {
      var i :| 0 <= i < |named| && named[i].name == n;
      assert Rank(n) == i;
    }
    forall n | n in expected ensures n in Names(named) {
      assert named[Rank(n)].name == n;
    }
  }

  /**
   * Every task the catalog builds has its own name, and together they are
   * the ten base names plus `spec-download-default` exactly when a default
   * spec URL was given.
   */
  lemma CatalogNames(cli: Cli, g: NamedTask)
    requires g.name == GenerateAll
    ensures DistinctNames(NamedTasks(cli, g))
    ensures |NamedTasks(cli, g)| == if cli.apiSpecUrl.Some? then 11 else 10
    ensures Names(NamedTasks(cli, g)) ==
      BASE_TASK_NAMES + (if cli.apiSpecUrl.Some? then {SpecDownloadDefault} else {})
  {
    CatalogOrder(cli, g);
    NamesInOrder(NamedTasks(cli, g), cli.apiSpecUrl.Some?);
  }

  /** A built task file holds the catalog built around its `generate-all` task. */
  lemma BuiltTasks(cli: Cli)
    requires MakefileSpecFrom(cli).Success?
    ensures MakeGenerateAllTask(cli).Success?
    ensures MakefileSpecFrom(cli).value.tasks == TaskMap(NamedTasks(cli, MakeGenerateAllTask(cli).value))
  {
  }

  /** A vector pushed in catalog order becomes a map keyed by its names, one entry per task. */
  lemma {:induction false} OrderedTaskMap(named: seq<NamedTask>, withDefault: bool)
    requires |named| == 10 || |named| == 11
    requires withDefault <==> |named| == 11
    requires forall i :: 0 <= i < |named| ==> named[i].name == CATALOG_ORDER[i]
    ensures TaskMap(named).Keys == BASE_TASK_NAMES + (if withDefault then {SpecDownloadDefault} else {})
    ensures SpecDownloadDefault in TaskMap(named) <==> withDefault
    ensures |TaskMap(named)| == if withDefault then 11 else 10
  {
    NamesInOrder(named, withDefault);
    TaskMapKeys(named);
    TaskMapSize(named);
    DefaultNotBase();
  }

  /** The catalog's map is keyed by exactly the catalog's names. */
  lemma CatalogTaskKeys(cli: Cli, g: NamedTask)
    requires g.name == GenerateAll
    ensures var tasks := TaskMap(NamedTasks(cli, g));
      && tasks.Keys == BASE_TASK_NAMES + (if cli.apiSpecUrl.Some? then {SpecDownloadDefault} else {})
      && (SpecDownloadDefault in tasks <==> cli.apiSpecUrl.Some?)
      && |tasks| == if cli.apiSpecUrl.Some? then 11 else 10
  {
    CatalogOrder(cli, g);
    OrderedTaskMap(NamedTasks(cli, g), cli.apiSpecUrl.Some?);
  }

  /** The tasks of a built task file are keyed by exactly the catalog's names. */
  lemma CatalogKeys(cli: Cli)
    requires MakefileSpecFrom(cli).Success?
    ensures var tasks := MakefileSpecFrom(cli).value.tasks;
      && tasks.Keys == BASE_TASK_NAMES + (if cli.apiSpecUrl.Some? then {SpecDownloadDefault} else {})
      && (SpecDownloadDefault in tasks <==> cli.apiSpecUrl.Some?)
      && |tasks| == if cli.apiSpecUrl.Some? then 11 else 10
  {
    BuiltTasks(cli);
    CatalogTaskKeys(cli, MakeGenerateAllTask(cli).value);
  }

  /** Every task of the catalog's map is the one pushed under its name. */
  lemma CatalogLookup(cli: Cli, g: NamedTask)
    requires g.name == GenerateAll
    ensures var named := NamedTasks(cli, g);
      forall i :: 0 <= i < |named| ==> named[i].name in TaskMap(named) && TaskMap(named)[named[i].name] == named[i].task
  {
    var named := NamedTasks(cli, g);
    CatalogNames(cli, g);
    forall i | 0 <= i < |named| ensures named[i].name in TaskMap(named) && TaskMap(named)[named[i].name] == named[i].task {
      TaskMapLookup(named, i);
    }
  }

  /** In the catalog's vector only the second and third tasks, `crate-scaffold` and `generate-all`, have dependencies. */
  lemma CatalogVectorDependencies(cli: Cli, g: NamedTask)
    requires g.name == GenerateAll && g.task.dependencies == Some([LibCodeGenerate, CargoFixGenerated])
    ensures var named := NamedTasks(cli, g);
      && |named| > 2
      && named[1].name == CrateScaffold && named[1].task.dependencies == Some([OutputDirCreate, OutputDirClean])
      && named[2].name == GenerateAll && named[2].task.dependencies == Some([LibCodeGenerate, CargoFixGenerated])
      && forall i :: 0 <= i < |named| && named[i].task.dependencies.Some? ==> i == 1 || i == 2
  {
  }

  /** When only `crate-scaffold` and `generate-all` entries of a vector have dependencies, the same holds of its map. */
  lemma {:induction false} DependentEntries(named: seq<NamedTask>)
    requires forall i :: 0 <= i < |named| && named[i].task.dependencies.Some? ==>
      named[i].name == CrateScaffold || named[i].name == GenerateAll
    ensures forall k :: k in TaskMap(named) && TaskMap(named)[k].dependencies.Some? ==>
      k == CrateScaffold || k == GenerateAll
  {
    if named != [] {
      var init := named[..|named| - 1];
      assert forall i :: 0 <= i < |init| ==> init[i] == named[i];
      DependentEntries(init);
    }
  }

  /** A vector with distinct names whose dependencies are those of the catalog gives a map with the same dependencies. */
  lemma DependencyEntries(named: seq<NamedTask>)
    requires DistinctNames(named) && |named| > 2
    requires named[1].name == CrateScaffold && named[1].task.dependencies == Some([OutputDirCreate, OutputDirClean])
    requires named[2].name == GenerateAll && named[2].task.dependencies == Some([LibCodeGenerate, CargoFixGenerated])
    requires forall i :: 0 <= i < |named| && named[i].task.dependencies.Some? ==> i == 1 || i == 2
    ensures var tasks := TaskMap(named);
      && CrateScaffold in tasks && GenerateAll in tasks
      && tasks[CrateScaffold].dependencies == Some([OutputDirCreate, OutputDirClean])
      && tasks[GenerateAll].dependencies == Some([LibCodeGenerate, CargoFixGenerated])
      && forall k :: k in tasks && tasks[k].dependencies.Some? ==> k == CrateScaffold || k == GenerateAll
  {
    TaskMapLookup(named, 1);
    TaskMapLookup(named, 2);
    DependentEntries(named);
  }

  /** The texts by which a task file names a list of tasks. */
  function NameTexts(ns: seq<TaskName>): (ts: seq<string>)
    ensures |ts| == |ns|
    ensures forall i :: 0 <= i < |ns| ==> ts[i] == NameText(ns[i])
  {
    if ns == [] then [] else [NameText(ns[0])] + NameTexts(ns[1..])
  }

  /**
   * The dependency lists, written as names, are the texts the task file
   * carries for them.
   */
  lemma DependencyTexts(cli: Cli)
    ensures NameTexts(MakeCrateScaffoldTask().task.dependencies.value) == ["output-dir-create", "output-dir-clean"]
    ensures MakeGenerateAllTask(cli).Success? ==>
      NameTexts(MakeGenerateAllTask(cli).value.task.dependencies.value) == ["lib-code-generate", "cargo-fix-generated"]
  {
    var scaffold := MakeCrateScaffoldTask().task.dependencies.value;
    assert NameTexts(scaffold) == [NameText(OutputDirCreate), NameText(OutputDirClean)];
    var all := [LibCodeGenerate, CargoFixGenerated];
    assert NameTexts(all) == [NameText(LibCodeGenerate), NameText(CargoFixGenerated)];
  }

  /** Only `crate-scaffold` and `generate-all` have dependencies, and they have these. */
  lemma CatalogTaskDependencies(cli: Cli, g: NamedTask)
    requires g.name == GenerateAll && g.task.dependencies == Some([LibCodeGenerate, CargoFixGenerated])
    ensures var tasks := TaskMap(NamedTasks(cli, g));
      && CrateScaffold in tasks && GenerateAll in tasks
      && tasks[CrateScaffold].dependencies == Some([OutputDirCreate, OutputDirClean])
      && tasks[GenerateAll].dependencies == Some([LibCodeGenerate, CargoFixGenerated])
      && forall k :: k in tasks && tasks[k].dependencies.Some? ==> k == CrateScaffold || k == GenerateAll
  {
    CatalogNames(cli, g);
    CatalogVectorDependencies(cli, g);
    DependencyEntries(NamedTasks(cli, g));
  }

  /**
   * A task map holding the base names, in which only `crate-scaffold` and
   * `generate-all` have dependencies, and those the catalog gives them, is
   * closed: every dependency is a task, and one without dependencies.
   */
  lemma DependenciesClosed(tasks: map<TaskName, Task>)
    requires BASE_TASK_NAMES <= tasks.Keys
    requires CrateScaffold in tasks && tasks[CrateScaffold].dependencies == Some([OutputDirCreate, OutputDirClean])
    requires GenerateAll in tasks && tasks[GenerateAll].dependencies == Some([LibCodeGenerate, CargoFixGenerated])
    requires forall k :: k in tasks && tasks[k].dependencies.Some? ==> k == CrateScaffold || k == GenerateAll
    ensures DependenciesExist(tasks)
    ensures forall k, d :: k in tasks && tasks[k].dependencies.Some? && d in tasks[k].dependencies.value ==>
      d in tasks && tasks[d].dependencies.None?
  {
    forall k, d | k in tasks && tasks[k].dependencies.Some? && d in tasks[k].dependencies.value
      ensures d in tasks && tasks[d].dependencies.None?
    {
      assert d in {OutputDirCreate, OutputDirClean, LibCodeGenerate, CargoFixGenerated};
    }
  }

  /**
   * Every dependency named in a built task file is a task of it, and the
   * two tasks that have dependencies have exactly the ones the runner must
   * run first; those dependencies have none of their own, so the graph is
   * acyclic.
   */
  lemma CatalogDependencies(cli: Cli)
    requires MakefileSpecFrom(cli).Success?
    ensures var tasks := MakefileSpecFrom(cli).value.tasks;
      && DependenciesExist(tasks)
      && CrateScaffold in tasks && GenerateAll in tasks
      && tasks[CrateScaffold].dependencies == Some([OutputDirCreate, OutputDirClean])
      && tasks[GenerateAll].dependencies == Some([LibCodeGenerate, CargoFixGenerated])
      && (forall k :: k in tasks && tasks[k].dependencies.Some? ==> k == CrateScaffold || k == GenerateAll)
      && (forall k, d :: k in tasks && tasks[k].dependencies.Some? && d in tasks[k].dependencies.value ==>
            d in tasks && tasks[d].dependencies.None?)
  {
    BuiltTasks(cli);
    var g := MakeGenerateAllTask(cli).value;
    var tasks := TaskMap(NamedTasks(cli, g));
    CatalogTaskKeys(cli, g);
    CatalogTaskDependencies(cli, g);
    DependenciesClosed(tasks);
  }

  /**
   * The failure order of `MakefileSpec::try_from`: an unresolvable spec file
   * name fails before any task is built; otherwise only `generate-all` can
   * fail, and its error is the result.
   */
  lemma SpecFailureOrder(cli: Cli)
    ensures cli.specFile.Failure? ==> MakefileSpecFrom(cli) == Failure(Parameter(cli.specFile.error))
    ensures cli.specFile.Success? && MakeGenerateAllTask(cli).Failure? ==>
      MakefileSpecFrom(cli) == Failure(MakeGenerateAllTask(cli).error)
    ensures MakefileSpecFrom(cli).Success? <==> cli.specFile.Success? && MakeGenerateAllTask(cli).Success?
  {
  }

  /** The dry run differs from the plain generation task only in its name and its last option. */
  lemma DryRunVariant()
    ensures var plain := MakeLibCodeGeneratorTask(None);
      && MakeLibCodeGeneratorTask(Some(false)) == plain
      && MakeLibCodeGeneratorTask(Some(true)) ==
         NamedTask(LibCodeGenerateDryRun, plain.task.(args := Some(plain.task.args.value + ["--dry-run"])))
      && NameText(LibCodeGenerateDryRun) == NameText(plain.name) + "-dry-run"
  {
  }

  /** The `generate-all` program embeds this crate's name, its version and the configurator's YAML. */
  lemma GenerateAllScriptEmbeds(cli: Cli)
    requires MakeGenerateAllTask(cli).Success?
    ensures var c := cli.cargoConfigurator.value;
      var script := MakeGenerateAllTask(cli).value.task.script.value.text;
      && Occurs(c.thisCrateName, script)
      && Occurs(c.thisCrateVer, script)
      && Occurs(c.yaml.value, script)
  {
    var c := cli.cargoConfigurator.value;
    var b := GenerateAllBindings(c, c.yaml.value);
    FillEmbeds(GENERATE_ALL_PROGRAM, b, 1);
    FillEmbeds(GENERATE_ALL_PROGRAM, b, 3);
    FillEmbeds(GENERATE_ALL_PROGRAM, b, 7);
  }

  /** `write_to_makefile` puts the task file at `Makefile.toml` in the output project directory. */
  function MakefilePath(cli: Cli): (p: Path)
    ensures |p| > 0 && Parent(p) == cli.outputProjectDir && p[|p| - 1] == "Makefile.toml"
  {
    cli.OutputProjectSubpath(MAKEFILE_NAME)
  }

  // ---------------------------------------------------------------------------
  // Properties of the environment
  // ---------------------------------------------------------------------------

  /** The values the environment derives rather than copies. */
  lemma EnvDerivedValues(cli: Cli)
    requires MakefileEnvFrom(cli).Success?
    ensures var e := EnvEntries(MakefileEnvFrom(cli).value);
      && (cli.apiSpecUrl.Some? ==> e["SPEC_FILE_URL"] == cli.apiSpecUrl.value)
      && (cli.apiSpecUrl.None? ==> e["SPEC_FILE_URL"] == "")
      && e["SPEC_FILE_NAME"] == cli.specFile.value.name
      && e["OUTPUT_DIR"] == "."
      && e["OUTPUT_TEMP_DIR"] == "./" + cli.tempDir
      && e["OPEN_API_GENERATOR_CONFIG_FILE"] == OPEN_API_GENERATOR_CONFIG_FILE
  {
  }

  /** A lone token is read back as its name. */
  lemma TokenText(n: string)
    requires '}' !in n
    ensures Tokens(Token(n)) == [n]
  {
    TokensAfterToken(n, "");
    assert Token(n) + "" == Token(n);
  }

  /** A token followed by plain text: only its own name is read back. */
  lemma TokenThenPlain(n: string, rest: string)
    requires '}' !in n && '$' !in rest
    ensures Tokens(Token(n) + rest) == [n]
  {
    TokensOfPlain(rest);
    TokensAfterToken(n, rest);
  }

  /** A token amid plain text: only its own name is read back. */
  lemma PlainTokenPlain(a: string, n: string, b: string)
    requires '$' !in a && '}' !in n && '$' !in b
    ensures Tokens(a + Token(n) + b) == [n]
  {
    var tail := Token(n) + b;
    TokenThenPlain(n, b);
    TokensAfterPlain(a, tail);
    Associative(a, Token(n), b);
  }

  /** Two tokens amid plain text are read back as their two names, in order. */
  lemma TwoTokensInPlain(a: string, n: string, b: string, m: string, c: string)
    requires '$' !in a && '}' !in n && '$' !in b && '}' !in m && '$' !in c
    ensures Tokens(a + Token(n) + b + Token(m) + c) == [n, m]
  {
    var tail := Token(m) + c;
    TokenThenPlain(m, c);
    TokensAfterPlain(b, tail);
    TokensAfterToken(n, b + tail);
    TokensAfterPlain(a, Token(n) + (b + tail));
    Associative(a + Token(n) + b, Token(m), c);
    Associative(a + Token(n), b, tail);
    Associative(a, Token(n), b + tail);
  }

  /** Concatenation is associative. */
  lemma Associative(x: string, y: string, z: string)
    ensures x + y + z == x + (y + z)
  {
  }

  /** The condition script's lines before the CLI check hold no token. */
  lemma ConditionScriptHeadPlain()
    ensures forall i :: 0 <= i < 2 ==> Tokens(CLI_CHECK_CONDITION_SCRIPT[i]) == []
  {
    var lines := CLI_CHECK_CONDITION_SCRIPT;
    assert '$' !in "# check if openapi cli " && '$' !in "command exists";
    PlainWords(lines[..2]);
    assert forall i :: 0 <= i < 2 ==> lines[i] == lines[..2][i];
  }

  /** The CLI check line names the CLI script entry. */
  lemma ConditionScriptCheckLine()
    ensures forall i :: 2 <= i < 3 ==> Tokens(CLI_CHECK_CONDITION_SCRIPT[i]) == ["OPEN_API_GENERATOR_CLI_SCRIPT"]
  {
    PlainTokenPlain("if command -v ", "OPEN_API_GENERATOR_CLI_SCRIPT", " >& /dev/null ;  then");
  }

  /** The condition script's lines reporting a found CLI hold no token. */
  lemma ConditionScriptFoundPlain()
    ensures forall i :: 3 <= i < 6 ==> Tokens(CLI_CHECK_CONDITION_SCRIPT[i]) == []
  {
    var lines := CLI_CHECK_CONDITION_SCRIPT;
    PlainWords(lines[3..6]);
    assert forall i :: 3 <= i < 6 ==> lines[i] == lines[3..6][i - 3];
  }

  /** The condition script's lines reporting a missing CLI hold no token. */
  lemma ConditionScriptMissingPlain()
    ensures forall i :: 6 <= i < |CLI_CHECK_CONDITION_SCRIPT| ==> Tokens(CLI_CHECK_CONDITION_SCRIPT[i]) == []
  {
    var lines := CLI_CHECK_CONDITION_SCRIPT;
    MissingCliMessagePlain();
    PlainWords(lines[7..]);
    assert forall i :: 7 <= i < |lines| ==> lines[i] == lines[7..][i - 7];
  }

  /** The message for a missing CLI holds no token. */
  lemma MissingCliMessagePlain()
    ensures Tokens(CLI_CHECK_CONDITION_SCRIPT[6]) == []
  {
    assert '$' !in "echo \"Missing OpenAPI CLI command. " && '$' !in "Try running `cargo make ";
    assert '$' !in "openapi-cli-bash-install`\"";
    TokensOfPlain(CLI_CHECK_CONDITION_SCRIPT[6]);
  }

  /** Two or three texts that each name only `[env]` entries, as a list. */
  lemma EachRefersToEnv(ws: seq<string>)
    requires 2 <= |ws| <= 3 && RefersToEnv(ws[0]) && RefersToEnv(ws[1]) && (|ws| == 3 ==> RefersToEnv(ws[2]))
    ensures forall i :: 0 <= i < |ws| ==> RefersToEnv(ws[i])
  {
  }

  /** Lines whose one token is `n`, on one given line, refer to the environment when `n` is an entry. */
  lemma OneTokenLines(lines: seq<string>, k: nat, n: string)
    requires k < |lines| && Tokens(lines[k]) == [n] && n in ENV_KEYS
    requires forall i :: 0 <= i < |lines| && i != k ==> Tokens(lines[i]) == []
    ensures forall i :: 0 <= i < |lines| ==> RefersToEnv(lines[i])
  {
  }

  /** The condition script names only the CLI script entry. */
  lemma ConditionScriptNameEntries()
    ensures Tokens(CLI_CHECK_CONDITION_SCRIPT[2]) == ["OPEN_API_GENERATOR_CLI_SCRIPT"]
    ensures forall i :: 0 <= i < |CLI_CHECK_CONDITION_SCRIPT| && i != 2 ==> Tokens(CLI_CHECK_CONDITION_SCRIPT[i]) == []
    ensures forall i :: 0 <= i < |CLI_CHECK_CONDITION_SCRIPT| ==> RefersToEnv(CLI_CHECK_CONDITION_SCRIPT[i])
  {
    ConditionScriptHeadPlain();
    ConditionScriptCheckLine();
    ConditionScriptFoundPlain();
    ConditionScriptMissingPlain();
    OneTokenLines(CLI_CHECK_CONDITION_SCRIPT, 2, "OPEN_API_GENERATOR_CLI_SCRIPT");
  }

  /** A template that is one reference renders to a text holding just that name. */
  lemma RefTokens(n: string)
    requires '}' !in n
    ensures Tokens(Render([Ref(n)])) == [n]
  {
    var t := [Ref(n)];
    assert PieceWellFormed(t[0]) && t[1..] == [];
    TokensOfRender(t);
  }

  /** A reference followed by plain text renders to a text holding just that name. */
  lemma RefThenLitTokens(n: string, rest: string)
    requires '}' !in n && '$' !in rest
    ensures Tokens(Render([Ref(n), Lit(rest)])) == [n]
  {
    var t := [Ref(n), Lit(rest)];
    assert PieceWellFormed(t[0]) && PieceWellFormed(t[1]);
    assert t[1..] == [Lit(rest)] && t[1..][1..] == [];
    assert Refs(t[1..]) == [];
    TokensOfRender(t);
  }

  /** Two references joined by plain text render to a text holding the two names. */
  lemma RefSepRefTokens(a: string, sep: string, b: string)
    requires '}' !in a && '$' !in sep && '}' !in b
    ensures Tokens(Render([Ref(a), Lit(sep), Ref(b)])) == [a, b]
  {
    var t := [Ref(a), Lit(sep), Ref(b)];
    assert PieceWellFormed(t[0]) && PieceWellFormed(t[1]) && PieceWellFormed(t[2]);
    assert t[1..] == [Lit(sep), Ref(b)] && t[1..][1..] == [Ref(b)] && t[1..][1..][1..] == [];
    assert Refs(t[1..][1..]) == [b];
    assert Refs(t[1..]) == [b];
    TokensOfRender(t);
  }

  /** The rendered template reads back as its references, in order (`TokensOfRender`). */
  lemma CliPathTemplateTokens()
    ensures Tokens(Render(CLI_PATH_TEMPLATE)) == ["OPEN_API_GENERATOR_CLI_SUBDIR", "OPEN_API_GENERATOR_CLI_SCRIPT"]
  {
    RefSepRefTokens("OPEN_API_GENERATOR_CLI_SUBDIR", "/", "OPEN_API_GENERATOR_CLI_SCRIPT");
  }

  /** The CLI path entry joins two references, to the CLI subdirectory and script entries, unresolved. */
  lemma CliPathTokens(cli: Cli)
    requires MakefileEnvFrom(cli).Success?
    ensures Tokens(MakefileEnvFrom(cli).value.openApiGeneratorCliPath) ==
      ["OPEN_API_GENERATOR_CLI_SUBDIR", "OPEN_API_GENERATOR_CLI_SCRIPT"]
  {
    CliPathTemplateTokens();
  }

  /** The rendered template reads back as its references, in order (`TokensOfRender`). */
  lemma ConfigPathTemplateTokens()
    ensures Tokens(Render(CONFIG_PATH_TEMPLATE)) == ["OPEN_API_GENERATOR_CONFIG_FILE"]
  {
    RefTokens("OPEN_API_GENERATOR_CONFIG_FILE");
  }

  /** The config path entry is a reference to the config file entry, unresolved. */
  lemma ConfigPathTokens(cli: Cli)
    requires MakefileEnvFrom(cli).Success?
    ensures Tokens(MakefileEnvFrom(cli).value.openApiGeneratorConfigPath) == ["OPEN_API_GENERATOR_CONFIG_FILE"]
  {
    ConfigPathTemplateTokens();
  }

  /** The rendered template reads back as its references, in order (`TokensOfRender`). */
  lemma DownloadDirTemplateTokens()
    ensures Tokens(Render(SPEC_DOWNLOAD_DIR_TEMPLATE)) == ["OUTPUT_TEMP_DIR"]
  {
    RefThenLitTokens("OUTPUT_TEMP_DIR", "/specdl");
  }

  /** The spec download directory entry is the temp dir reference followed by `/specdl`. */
  lemma DownloadDirTokens(cli: Cli)
    requires MakefileEnvFrom(cli).Success?
    ensures Tokens(MakefileEnvFrom(cli).value.specFileDownloadDir) == ["OUTPUT_TEMP_DIR"]
  {
    DownloadDirTemplateTokens();
  }

  /** The rendered template reads back as its references, in order (`TokensOfRender`). */
  lemma SpecPathTemplateTokens()
    ensures Tokens(Render(SPEC_PATH_TEMPLATE)) == ["SPEC_FILE_NAME"]
  {
    RefTokens("SPEC_FILE_NAME");
  }

  /** The spec path entry is a reference to the spec file name entry, unresolved. */
  lemma SpecPathTokens(cli: Cli)
    requires MakefileEnvFrom(cli).Success?
    ensures Tokens(MakefileEnvFrom(cli).value.specFilePath) == ["SPEC_FILE_NAME"]
  {
    SpecPathTemplateTokens();
  }

  /** Words free of `$` hold no token. */
  lemma PlainWords(ws: seq<string>)
    requires forall i :: 0 <= i < |ws| ==> '$' !in ws[i]
    ensures forall i :: 0 <= i < |ws| ==> Tokens(ws[i]) == []
  {
    forall i | 0 <= i < |ws| ensures Tokens(ws[i]) == [] {
      TokensOfPlain(ws[i]);
    }
  }

  /** The download URL of the CLI holds no token. */
  lemma CliUrlPlain()
    ensures Tokens(OPEN_API_GENERATOR_CLI_URL) == []
  {
    assert '$' !in "https://raw.githubusercontent.com/" && '$' !in "OpenAPITools/openapi-generator/";
    assert '$' !in "master/bin/utils/" && '$' !in "openapi-generator-cli.sh";
    TokensOfPlain(OPEN_API_GENERATOR_CLI_URL);
  }

  /** The temporary directory entry holds no token (given a `$`-free directory name). */
  lemma TempDirPlain(tempDir: string)
    requires '$' !in tempDir
    ensures Tokens("./" + tempDir) == []
  {
    TokensAfterPlain("./", tempDir);
    TokensOfPlain(tempDir);
  }

  /** The fixed names of the CLI and its config file hold no token. */
  lemma CliNamesPlain()
    ensures Tokens(OPEN_API_GENERATOR_CLI_SUBDIR) == [] && Tokens(OPEN_API_GENERATOR_CLI_SCRIPT) == []
    ensures Tokens(OPEN_API_GENERATOR_CONFIG_FILE) == []
  {
    var names := [OPEN_API_GENERATOR_CLI_SUBDIR, OPEN_API_GENERATOR_CLI_SCRIPT, OPEN_API_GENERATOR_CONFIG_FILE];
    PlainWords(names);
    assert Tokens(names[0]) == [] && Tokens(names[1]) == [] && Tokens(names[2]) == [];
  }

  /**
   * Every `${NAME}` token the environment itself writes names one of its own
   * entries; only the values copied from the command line (API URL and name,
   * library name, spec file name and URL) are left out, being whatever the
   * user typed.
   */
  lemma EnvTokensNameEntries(cli: Cli)
    requires MakefileEnvFrom(cli).Success?
    requires '$' !in cli.tempDir
    ensures var env := MakefileEnvFrom(cli).value;
      && RefersToEnv(env.outputDir) && RefersToEnv(env.outputTempDir)
      && RefersToEnv(env.openApiGeneratorCliUrl) && RefersToEnv(env.openApiGeneratorCliSubdir)
      && RefersToEnv(env.openApiGeneratorCliPath) && RefersToEnv(env.openApiGeneratorCliScript)
      && RefersToEnv(env.openApiGeneratorConfigFile) && RefersToEnv(env.openApiGeneratorConfigPath)
      && RefersToEnv(env.specFileDownloadDir) && RefersToEnv(env.specFilePath)
  {
    CliPathTokens(cli);
    ConfigPathTokens(cli);
    DownloadDirTokens(cli);
    SpecPathTokens(cli);
    TempDirPlain(cli.tempDir);
    CliUrlPlain();
    CliNamesPlain();
    assert Tokens(".") == [];
    assert "OPEN_API_GENERATOR_CLI_SUBDIR" in ENV_KEYS && "OPEN_API_GENERATOR_CLI_SCRIPT" in ENV_KEYS;
    assert "OPEN_API_GENERATOR_CONFIG_FILE" in ENV_KEYS && "OUTPUT_TEMP_DIR" in ENV_KEYS && "SPEC_FILE_NAME" in ENV_KEYS;
  }

  /**
   * The same fact over the `[env]` section as the task file lists it: the
   * value of every entry not copied from the command line names only entries.
   */
  lemma EnvEntriesNameEntries(cli: Cli)
    requires MakefileEnvFrom(cli).Success?
    requires '$' !in cli.tempDir
    ensures var e := EnvEntries(MakefileEnvFrom(cli).value);
      forall k :: k in ENV_KEYS - CLI_VALUED_KEYS ==> RefersToEnv(e[k])
  {
    EnvTokensNameEntries(cli);
    DerivedEntriesOfFields(MakefileEnvFrom(cli).value);
  }

  /** The entries not copied from the command line are the ten derived fields. */
  lemma DerivedEntriesOfFields(env: MakefileEnv)
    requires && RefersToEnv(env.outputDir) && RefersToEnv(env.outputTempDir)
      && RefersToEnv(env.openApiGeneratorCliUrl) && RefersToEnv(env.openApiGeneratorCliSubdir)
      && RefersToEnv(env.openApiGeneratorCliPath) && RefersToEnv(env.openApiGeneratorCliScript)
      && RefersToEnv(env.openApiGeneratorConfigFile) && RefersToEnv(env.openApiGeneratorConfigPath)
      && RefersToEnv(env.specFileDownloadDir) && RefersToEnv(env.specFilePath)
    ensures forall k :: k in ENV_KEYS - CLI_VALUED_KEYS ==> RefersToEnv(EnvEntries(env)[k])
  {
  }

  /** Three generator options are tokens for the output directory, the spec path and the config path entries. */
  lemma CodeGenerationOptsTokens()
    ensures Tokens(CODE_GENERATION_OPTS[4]) == ["OUTPUT_DIR"]
    ensures Tokens(CODE_GENERATION_OPTS[6]) == ["SPEC_FILE_PATH"]
    ensures Tokens(CODE_GENERATION_OPTS[8]) == ["OPEN_API_GENERATOR_CONFIG_PATH"]
  {
    TokenText("OUTPUT_DIR");
    TokenText("SPEC_FILE_PATH");
    TokenText("OPEN_API_GENERATOR_CONFIG_PATH");
  }

  /** The other generator options are plain words. */
  lemma CodeGenerationOptsPlain()
    ensures forall i :: 0 <= i < |CODE_GENERATION_OPTS| && i != 4 && i != 6 && i != 8 ==>
      Tokens(CODE_GENERATION_OPTS[i]) == []
  {
    var opts := CODE_GENERATION_OPTS;
    var words := [opts[0], opts[1], opts[2], opts[3], opts[5], opts[7]];
    assert words == ["generate", "--generator-name", "rust", "--output", "--input-spec", "--config"];
    PlainWords(words);
    assert forall i :: 0 <= i < |opts| && i != 4 && i != 6 && i != 8 ==>
      opts[i] == words[if i < 4 then i else if i == 5 then 4 else 5];
  }

  /** Every token in the generator options names an environment entry. */
  lemma CodeGenerationOptsNameEntries()
    ensures forall i, n :: 0 <= i < |CODE_GENERATION_OPTS| && n in Tokens(CODE_GENERATION_OPTS[i]) ==> n in ENV_KEYS
  {
    CodeGenerationOptsTokens();
    CodeGenerationOptsPlain();
    assert "OUTPUT_DIR" in ENV_KEYS && "SPEC_FILE_PATH" in ENV_KEYS && "OPEN_API_GENERATOR_CONFIG_PATH" in ENV_KEYS;
  }

  // ---------------------------------------------------------------------------
  // Properties of the tasks: every token the runner substitutes in a task
  // names an `[env]` entry, except the runner's own `${@}`.
  // ---------------------------------------------------------------------------

  /** The texts of `cargo-fix-generated` name only the library name entry. */
  lemma CargoFixTexts()
    ensures RefersToEnv(CARGO_FIX_DESCRIPTION) && RefersToEnv("cargo")
    ensures forall i :: 0 <= i < |CARGO_FIX_ARGS| ==> RefersToEnv(CARGO_FIX_ARGS[i])
  {
    PlainTokenPlain("Fix ", "LIB_NAME", " project generated code'.");
    TokensOfPlain("cargo");
    PlainWords(CARGO_FIX_ARGS);
  }

  lemma CargoFixTaskTokens()
    ensures TaskRefersToEnv(MakeCargoFixTask().task)
  {
    CargoFixTexts();
  }

  lemma CrateScaffoldTaskTokens()
    ensures TaskRefersToEnv(MakeCrateScaffoldTask().task)
  {
    PlainTokenPlain("Setup ", "LIB_NAME", " project'.");
  }

  /** The description of `generate-all` names the library name entry. */
  lemma GenerateAllDescription()
    ensures RefersToEnv(GENERATE_ALL_DESCRIPTION)
  {
    PlainTokenPlain("Generate ", "LIB_NAME", " code and try to get it up to par");
  }

  lemma GenerateAllTaskTokens(cli: Cli)
    ensures MakeGenerateAllTask(cli).Success? ==> TaskRefersToEnv(MakeGenerateAllTask(cli).value.task)
  {
    GenerateAllDescription();
  }

  /** The description and command of the code generation tasks name the library name and CLI script entries. */
  lemma LibCodeGeneratorTexts()
    ensures RefersToEnv(LIB_CODE_GENERATE_DESCRIPTION) && RefersToEnv(LIB_CODE_GENERATE_COMMAND)
    ensures RefersToEnv("--dry-run")
  {
    PlainTokenPlain("Generate ", "LIB_NAME", " code");
    TokenText("OPEN_API_GENERATOR_CLI_SCRIPT");
    TokensOfPlain("--dry-run");
  }

  lemma LibCodeGeneratorTaskTokens(isDryRun: Option<bool>)
    ensures TaskRefersToEnv(MakeLibCodeGeneratorTask(isDryRun).task)
  {
    LibCodeGeneratorTexts();
    CodeGenerationOptsNameEntries();
    ConditionScriptNameEntries();
    var args := MakeLibCodeGeneratorTask(isDryRun).task.args.value;
    assert forall i :: 0 <= i < |args| ==> i < |CODE_GENERATION_OPTS| || args[i] == "--dry-run";
  }

  /** The command and arguments of `openapi-cli-check` name only the CLI script entry. */
  lemma OpenapiCliCheckTexts()
    ensures RefersToEnv("command")
    ensures forall i :: 0 <= i < |OPENAPI_CLI_CHECK_ARGS| ==> RefersToEnv(OPENAPI_CLI_CHECK_ARGS[i])
  {
    TokensOfPlain("command");
    TokensOfPlain("-v");
    TokenText("OPEN_API_GENERATOR_CLI_SCRIPT");
    EachRefersToEnv(OPENAPI_CLI_CHECK_ARGS);
  }

  /** The description of `openapi-cli-check` holds no token. */
  lemma OpenapiCliCheckDescription()
    ensures Tokens(OPENAPI_CLI_CHECK_DESCRIPTION) == []
  {
    assert '$' !in "Check that openapi cli " && '$' !in "generator tool is installed";
    TokensOfPlain(OPENAPI_CLI_CHECK_DESCRIPTION);
  }

  lemma OpenapiCliCheckTaskTokens()
    ensures TaskRefersToEnv(MakeOpenapiCliCheckTask().task)
  {
    OpenapiCliCheckDescription();
    OpenapiCliCheckTexts();
  }

  lemma OpenapiCliInstallTaskTokens()
    ensures TaskRefersToEnv(MakeOpenapiCliInstallTask().task)
  {
    TokensOfPlain(OPENAPI_CLI_INSTALL_DESCRIPTION);
  }

  /** The texts of `output-dir-clean` name the library name and output directory entries. */
  lemma OutputDirCleanTexts()
    ensures RefersToEnv(OUTPUT_DIR_CLEAN_DESCRIPTION) && RefersToEnv("rm")
    ensures forall i :: 0 <= i < |OUTPUT_DIR_CLEAN_ARGS| ==> RefersToEnv(OUTPUT_DIR_CLEAN_ARGS[i])
  {
    TwoTokensInPlain("Setup ", "LIB_NAME", " output dir at ", "OUTPUT_DIR", "'.");
    TokensOfPlain("rm");
    TokensOfPlain("-rf");
    TokenThenPlain("OUTPUT_DIR", "/*");
    EachRefersToEnv(OUTPUT_DIR_CLEAN_ARGS);
  }

  lemma OutputDirCleanTaskTokens()
    ensures TaskRefersToEnv(MakeOutputDirCleanTask().task)
  {
    OutputDirCleanTexts();
  }

  /** The texts of `output-dir-create` name the library name and output directory entries. */
  lemma OutputDirCreateTexts()
    ensures RefersToEnv(OUTPUT_DIR_CREATE_DESCRIPTION) && RefersToEnv("mkdir")
  {
    TwoTokensInPlain("Create ", "LIB_NAME", " output dir at ", "OUTPUT_DIR", "'.");
    TokensOfPlain("mkdir");
  }

  lemma OutputDirCreateTaskTokens()
    ensures TaskRefersToEnv(MakeOutputDirCreateTask().task)
  {
    OutputDirCreateTexts();
  }

  /** The description of `spec-download-default` names the API name and URL entries. */
  lemma SpecDownloadDefaultDescription()
    ensures RefersToEnv(SPEC_DOWNLOAD_DEFAULT_DESCRIPTION)
  {
    TwoTokensInPlain("Downloads ", "API_NAME", " Open API specification from '", "API_URL", "'.");
  }

  /** `wget` and its `-O` option hold no token. */
  lemma WgetWords()
    ensures RefersToEnv("wget") && RefersToEnv("-O")
  {
    TokensOfPlain("wget");
    TokensOfPlain("-O");
  }

  /** The arguments of `spec-download-default` name the spec file URL and path entries. */
  lemma SpecDownloadDefaultArgs()
    ensures forall i :: 0 <= i < |SPEC_DOWNLOAD_DEFAULT_ARGS| ==> RefersToEnv(SPEC_DOWNLOAD_DEFAULT_ARGS[i])
  {
    var args := SPEC_DOWNLOAD_DEFAULT_ARGS;
    TokensOfPlain("-O");
    TokenText("SPEC_FILE_URL");
    TokenText("SPEC_FILE_PATH");
    EachRefersToEnv(args);
  }

  lemma SpecDownloadDefaultTaskTokens()
    ensures TaskRefersToEnv(MakeSpecDownloadDefaultTask().task)
  {
    SpecDownloadDefaultDescription();
    WgetWords();
    SpecDownloadDefaultArgs();
  }

  /** The description of `spec-download` names the API name entry. */
  lemma SpecDownloadDescription()
    ensures RefersToEnv(SPEC_DOWNLOAD_DESCRIPTION)
  {
    assert '$' !in " Open API specification " && '$' !in "from specified vararg'.";
    PlainTokenPlain("Downloads ", "API_NAME", " Open API specification " + "from specified vararg'.");
  }

  /** The arguments of `spec-download`: the runner's `${@}`, then `-O` and the spec file path entry. */
  lemma SpecDownloadArgs()
    ensures Tokens(SPEC_DOWNLOAD_ARGS[0]) == [RUNNER_ARGS_NAME]
    ensures RefersToEnv(SPEC_DOWNLOAD_ARGS[1]) && RefersToEnv(SPEC_DOWNLOAD_ARGS[2])
  {
    WgetWords();
    TokenText(RUNNER_ARGS_NAME);
    TokenText("SPEC_FILE_PATH");
  }

  /** `spec-download` takes its URL from the runner's own `${@}`, which is no `[env]` entry. */
  lemma SpecDownloadTaskTokens()
    ensures var t := MakeSpecDownloadTask().task;
      && RefersToEnv(t.description.value) && RefersToEnv(t.command.value)
      && |t.args.value| == 3
      && Tokens(t.args.value[0]) == [RUNNER_ARGS_NAME] && RUNNER_ARGS_NAME !in ENV_KEYS
      && RefersToEnv(t.args.value[1]) && RefersToEnv(t.args.value[2])
  {
    SpecDownloadDescription();
    WgetWords();
    SpecDownloadArgs();
  }

  // ---------------------------------------------------------------------------
  // Building and writing the task file
  // ---------------------------------------------------------------------------

  /**
   * `MakefileSpec::try_from`: builds the environment, pushes the tasks onto a
   * vector and drains the vector into the task map.
   */
  method BuildMakefileSpec(cli: Cli) returns (r: Result<MakefileSpec, MakefileGenerationError>)
    ensures r == MakefileSpecFrom(cli)
  {
    var env := MakefileEnvFrom(cli);
    if env.Failure? {
      return Failure(env.error);
    }
    var generateAll := MakeGenerateAllTask(cli);
    if generateAll.Failure? {
      return Failure(generateAll.error);
    }
    var named := [
      MakeCargoFixTask(),
      MakeCrateScaffoldTask(),
      generateAll.value,
      MakeLibCodeGeneratorTask(None),
      MakeLibCodeGeneratorTask(Some(true)),
      MakeOpenapiCliCheckTask(),
      MakeOpenapiCliInstallTask(),
      MakeOutputDirCleanTask(),
      MakeOutputDirCreateTask(),
      MakeSpecDownloadTask()
    ];
    if cli.apiSpecUrl.Some? {
      named := named + [MakeSpecDownloadDefaultTask()];
    }
    assert named == NamedTasks(cli, generateAll.value);
    var tasks := map[];
    var i := 0;
    while i < |named|
      invariant 0 <= i <= |named|
      invariant tasks == TaskMap(named[..i])
    {
      assert named[..i + 1][..i] == named[..i];
      tasks := tasks[named[i].name := named[i].task];
      i := i + 1;
    }
    assert named[..|named|] == named;
    r := Success(MakefileSpec(env.value, tasks));
  }

  /**
   * `write_to_makefile`: the serialized task file (`toml::to_string_pretty`,
   * whose outcome is given) is written to `Makefile.toml` in the output
   * project directory; a serializer error stops before any write.
   */
  method WriteToMakefile(fs: FileSystem, cli: Cli, serialized: Result<string, TomlSerError>)
    returns (r: Result<(), MakefileGenerationError>)
    requires fs.Valid()
    modifies fs
    ensures fs.Valid()
    ensures serialized.Failure? ==> r == Failure(TomlSer(serialized.error)) && fs.tree == old(fs.tree)
    ensures serialized.Success? ==> (r.Success? <==> CanWrite(old(fs.tree), MakefilePath(cli)))
    ensures serialized.Success? && r.Success? ==> fs.tree == old(fs.tree)[MakefilePath(cli) := File(serialized.value)]
    ensures serialized.Success? && r.Failure? ==> r.error.Io? && fs.tree == old(fs.tree)
  {
    if serialized.Failure? {
      return Failure(TomlSer(serialized.error));
    }
    var written := fs.Write(MakefilePath(cli), serialized.value);
    if written.Failure? {
      return Failure(Io(written.error));
    }
    r := Success(());
  }
}
