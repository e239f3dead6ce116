# openapi_lib_generator core, modelled in Dafny

`openapi_lib_generator` scaffolds a Rust crate that wraps an OpenAPI spec. It
does this in three steps:

- It prepares the crate directory and runs `cargo init` (`scaffold_crate`).
- It writes a `cargo-make` task file, `Makefile.toml`. That file has an
  environment of `${NAME}` variables and a catalog of named tasks that
  download the spec, run the OpenAPI generator and fix up the generated code.
- It writes the OpenAPI Rust generator's configuration file,
  `generator_config.yaml`.

This project models that core in three modules:

- **`Makefiles`** (`src/generate/makefiles.rs`):
  - the environment record `MakefileEnv` and its 15 entries;
  - every `NamedTask::make_*` constructor, building a `Task` record with
    optional fields;
  - the catalog `MakefileSpec::try_from`, modelled as a method that pushes
    the tasks onto a vector and drains it into a map, proved equal to a
    specification function;
  - the path `write_to_makefile` writes to.
- **`CrateScaffolds`** (`src/generate/crate_scaffolds.rs`): one method per
  scaffolding step, each over a `FileSystem` object, plus the ordered,
  early-exit `scaffold_crate`.
- **`Yamls`** (`src/generate/yamls.rs`):
  - the generator configuration's defaults and `new`;
  - `copy_spec_file`, `write_to_yaml_file` and `create_testing_spec_file`
    as writes to the same filesystem.

Four supporting modules:

- `FileSystems` is the filesystem: a class holding a map from paths (sequences of
  components) to directories and files. Its `create_dir_all`,
  `remove_dir_all`, `write`, `read` and directory-listing methods are each
  specified by a function on the map, and each keeps the tree well formed:
  every entry's parent is a directory.
- `Cli` is the command line after resolution. Each getter the core calls is a
  field.
- `Placeholders` holds `${NAME}` tokens:
  - a scanner `Tokens` that reads them back out of a string;
  - templates whose rendering the scanner reads back;
  - a `Fill` for the `format!` templates.
- `Wrappers` holds `Option` and `Result`.

The task file keys tasks by name. The model keys them by an enumeration,
`Makefiles.TaskName`. `Makefiles.NameText` gives the text each name is
stored under, and `Makefiles.NameTextInjective` proves that no two names share
a text. So the enumeration-keyed map has the same keys and size as the
string-keyed map of the source.

## Model

| member | source | states |
|---|---|---|
| Makefiles.MakefileEnvFrom | src/generate/makefiles.rs:116-148 | the environment is built iff the spec file name resolves; otherwise the result is that parameter error |
| Makefiles.EnvEntries | src/generate/makefiles.rs:96-115 | the environment as the task file lists it: exactly the 15 SCREAMING_SNAKE_CASE keys of the record's fields, each mapped to its field |
| Makefiles.EnvDerivedValues | src/generate/makefiles.rs:123-147 | `SPEC_FILE_URL` is the URL when one is given and `""` otherwise; `OUTPUT_DIR` is `"."`; `OUTPUT_TEMP_DIR` is `"./"` followed by the temp dir; the config file entry is `generator_config.yaml` |
| Makefiles.CliPathTokens | src/generate/makefiles.rs:136 | the CLI path entry holds exactly the references `OPEN_API_GENERATOR_CLI_SUBDIR` then `OPEN_API_GENERATOR_CLI_SCRIPT`, unresolved |
| Makefiles.ConfigPathTokens | src/generate/makefiles.rs:140 | the config path entry holds exactly a reference to `OPEN_API_GENERATOR_CONFIG_FILE`, unresolved |
| Makefiles.DownloadDirTokens | src/generate/makefiles.rs:141-143 | the spec download dir entry holds exactly a reference to `OUTPUT_TEMP_DIR` (followed by plain `/specdl`) |
| Makefiles.SpecPathTokens | src/generate/makefiles.rs:145 | the spec path entry holds exactly a reference to `SPEC_FILE_NAME`, unresolved |
| Makefiles.EnvTokensNameEntries | src/generate/makefiles.rs:98-146 | every `${NAME}` the environment writes in its ten non-command-line entries names an entry of the same environment |
| Makefiles.EnvEntriesNameEntries | src/generate/makefiles.rs:96-146 | in the `[env]` section as the task file lists it, the value of every key outside the five copied from the command line (`CLI_VALUED_KEYS`) names only keys of the same section |
| Makefiles.CliUrlPlain | src/generate/makefiles.rs:154 | the generator CLI download URL contains no `${…}` token |
| Makefiles.CliNamesPlain | src/generate/makefiles.rs:152-158 | the CLI subdirectory, CLI script and config file constants contain no token |
| Makefiles.TempDirPlain | src/generate/makefiles.rs:134 | the temp-dir entry contains no token when the directory name has no `$` |
| Makefiles.CodeGenerationOptsTokens | src/generate/makefiles.rs:171-178 | the output, input-spec and config option values are the tokens `OUTPUT_DIR`, `SPEC_FILE_PATH` and `OPEN_API_GENERATOR_CONFIG_PATH` |
| Makefiles.CodeGenerationOptsPlain | src/generate/makefiles.rs:171-178 | every other generator option is a plain word with no token |
| Makefiles.CodeGenerationOptsNameEntries | src/generate/makefiles.rs:171-178 | every token in the generator options is a key of the environment |
| Makefiles.ConditionScriptNameEntries | src/generate/makefiles.rs:270-280 | the condition script of the code generation tasks names only the `OPEN_API_GENERATOR_CLI_SCRIPT` entry, on its `command -v` line; every other line holds no token |
| Makefiles.CargoFixTaskTokens | src/generate/makefiles.rs:181-199 | every `${NAME}` in the description, command and arguments of `cargo-fix-generated` names an environment entry |
| Makefiles.CrateScaffoldTaskTokens | src/generate/makefiles.rs:201-213 | every `${NAME}` in `crate-scaffold`'s texts names an environment entry |
| Makefiles.GenerateAllTaskTokens | src/generate/makefiles.rs:216-255 | when `generate-all` is built, every `${NAME}` in its description names an environment entry |
| Makefiles.LibCodeGeneratorTaskTokens | src/generate/makefiles.rs:258-287 | for the plain and the dry-run variant, every `${NAME}` in the description, command, arguments and condition script names an environment entry |
| Makefiles.OpenapiCliCheckTaskTokens | src/generate/makefiles.rs:306-316 | every `${NAME}` in `openapi-cli-check`'s texts names an environment entry |
| Makefiles.OpenapiCliInstallTaskTokens | src/generate/makefiles.rs:319-400 | every `${NAME}` in the description of `openapi-cli-bash-install` names an environment entry (its installer script is opaque) |
| Makefiles.OutputDirCleanTaskTokens | src/generate/makefiles.rs:403-413 | every `${NAME}` in `output-dir-clean`'s texts, `${OUTPUT_DIR}/*` included, names an environment entry |
| Makefiles.OutputDirCreateTaskTokens | src/generate/makefiles.rs:416-426 | every `${NAME}` in `output-dir-create`'s texts names an environment entry |
| Makefiles.SpecDownloadDefaultTaskTokens | src/generate/makefiles.rs:429-439 | every `${NAME}` in `spec-download-default`'s texts names an environment entry |
| Makefiles.SpecDownloadTaskTokens | src/generate/makefiles.rs:441-451 | `spec-download`'s first argument is the runner's own `${@}`, which is not an environment entry; every other `${NAME}` in its texts names one |
| Makefiles.DependencyTexts | src/generate/makefiles.rs:206-246 | the dependency lists, read as task file keys, are exactly `output-dir-create`, `output-dir-clean` and `lib-code-generate`, `cargo-fix-generated` |
| Makefiles.MakeGenerateAllTask | src/generate/makefiles.rs:216-255 | fails exactly when the configurator or its YAML serialization fails, with that error; otherwise it gives `generate-all`, runner `@rust`, dependencies `lib-code-generate` then `cargo-fix-generated` |
| Makefiles.GenerateAllScriptEmbeds | src/generate/makefiles.rs:220-238 | the `generate-all` script contains the crate name, the crate version and the configurator YAML |
| Makefiles.MakeLibCodeGeneratorTask | src/generate/makefiles.rs:258-287 | with `Some(true)` the name is the dry-run name and the args are the generator options plus `--dry-run`; otherwise the plain name and the options unchanged |
| Makefiles.DryRunVariant | src/generate/makefiles.rs:258-287 | `Some(false)` equals `None`; the dry-run task differs from the plain one only in its name (the plain name plus `-dry-run`) and the extra last arg; description, command and condition script are shared |
| Makefiles.NameTextInjective | src/generate/makefiles.rs:181-451 | no two catalog task names have the same text |
| Makefiles.TaskMapKeys | src/generate/makefiles.rs:55-59 | draining a vector of named tasks into a map gives exactly the vector's names as keys |
| Makefiles.TaskMapLookup | src/generate/makefiles.rs:55-59 | with distinct names each task is found under its own name (no insertion is overwritten) |
| Makefiles.TaskMapSize | src/generate/makefiles.rs:55-59 | with distinct names the map has as many entries as the vector |
| Makefiles.OrderedTaskMap | src/generate/makefiles.rs:40-59 | a vector pushed in catalog order becomes a map with the base names, plus the default download exactly when it has 11 tasks, and one entry per task |
| Makefiles.NamesInOrder | src/generate/makefiles.rs:40-54 | a vector pushed in catalog order has pairwise distinct names: the base names, plus the default download exactly when it has 11 tasks |
| Makefiles.CatalogOrder | src/generate/makefiles.rs:40-54 | the vector holds 10 tasks, or 11 when a default spec URL is given, pushed in the source's order |
| Makefiles.CatalogNames | src/generate/makefiles.rs:40-54 | the pushed tasks have pairwise distinct names: the ten base names plus `spec-download-default` exactly when a default spec URL is given |
| Makefiles.BuiltTasks | src/generate/makefiles.rs:36-62 | a successful build holds the map of the catalog built around its `generate-all` task |
| Makefiles.CatalogTaskKeys | src/generate/makefiles.rs:40-59 | the catalog's map has exactly the ten base keys, plus `spec-download-default` iff a default spec URL is given, and size 10 or 11 |
| Makefiles.CatalogKeys | src/generate/makefiles.rs:32-63 | the tasks of a built task file have exactly those keys and that size |
| Makefiles.CatalogLookup | src/generate/makefiles.rs:40-59 | every pushed task is stored unchanged under its own name |
| Makefiles.CatalogVectorDependencies | src/generate/makefiles.rs:40-54 | in the pushed vector only `crate-scaffold` (output-dir-create, output-dir-clean) and `generate-all` (lib-code-generate, cargo-fix-generated) carry dependencies |
| Makefiles.DependentEntries | src/generate/makefiles.rs:55-59 | when only `crate-scaffold` and `generate-all` entries of a vector carry dependencies, only those keys of its map do |
| Makefiles.DependencyEntries | src/generate/makefiles.rs:55-59 | with distinct names, the map keeps the dependencies of `crate-scaffold` and `generate-all` exactly and gives no other task any |
| Makefiles.CatalogTaskDependencies | src/generate/makefiles.rs:201-255 | `crate-scaffold` depends on `output-dir-create` then `output-dir-clean`, `generate-all` on `lib-code-generate` then `cargo-fix-generated`, and no other task has dependencies |
| Makefiles.DependenciesClosed | src/generate/makefiles.rs:201-255 | a map with the base names and the catalog's two dependency lists is closed: every dependency is a key, and one without dependencies |
| Makefiles.CatalogDependencies | src/generate/makefiles.rs:32-255 | in a built task file every dependency is a key of the same map, and dependencies have none of their own |
| Makefiles.SpecFailureOrder | src/generate/makefiles.rs:36-62 | an unresolvable spec file name fails before any task is built; otherwise only `generate-all` can fail, and its error is the result; success iff neither fails |
| Makefiles.BuildMakefileSpec | src/generate/makefiles.rs:32-63 | the vector-and-drain build yields exactly the specified task file or error, so all catalog lemmas hold of its result |
| Makefiles.MakefilePath | src/generate/makefiles.rs:76-79 | the task file path is `Makefile.toml` directly inside the output project directory |
| Makefiles.WriteToMakefile | src/generate/makefiles.rs:67-83 | a serializer error is returned before any write; otherwise the file at the task file path holds the serialized text, succeeding iff that path can be written, and nothing else changes |
| Yamls.DefaultConfigValues | src/generate/yamls.rs:56-73 | library `reqwest`, package `openapi` at `1.0.0`, empty enum suffix; exactly `hideGenerationTimestamp` and `supportAsync` are on |
| Yamls.NewConfigs | src/generate/yamls.rs:76-81 | the package name is the library name; resetting it gives the defaults back, so no other field differs |
| Yamls.NewConfigsDependOnLibName | src/generate/yamls.rs:76-81 | two command lines give the same configuration iff they name the same library |
| Yamls.ConfigPath | src/generate/yamls.rs:101-103 | the configuration is written to `generator_config.yaml` directly inside the output project directory |
| Yamls.ConfigBesideMakefile | src/generate/yamls.rs:101-103 | that path is the project directory joined with the environment's `OPEN_API_GENERATOR_CONFIG_FILE` value; it sits beside `Makefile.toml` and is a different file |
| Yamls.CopySpecFile | src/generate/yamls.rs:83-95 | no local spec path: `Ok` and nothing changes; unresolvable spec name: that parameter error before any read; otherwise the spec file gets the local file's content unchanged, succeeding iff the source is a file and the target writable; a failure changes nothing |
| Yamls.WriteToYamlFile | src/generate/yamls.rs:97-111 | a serializer error is returned before any write; otherwise the config path holds the serialized text, succeeding iff it is writable |
| Yamls.CreateTestingSpecFile | src/generate/yamls.rs:117-133 | no local spec path: `TestingYAMLSpecPathMissing` and nothing written; otherwise the petstore text is written verbatim to that path, succeeding iff it is writable, and any other failure is an I/O error |
| CrateScaffolds.CreateTestingFolder | src/generate/crate_scaffolds.rs:45-52 | an existing directory is removed with its contents and recreated, otherwise created; afterwards it is an empty directory and everything outside it is unchanged; failure is an I/O error and changes nothing |
| CrateScaffolds.CreateCrateFolderAndCheckEmpty | src/generate/crate_scaffolds.rs:54-62 | the directory is created if absent; success iff nothing blocks the path and it has no entry; an existing entry gives `NonEmptyTargetDir(dir)`; a file at the directory itself gives `AlreadyExists(dir)`, a file on a strict ancestor `NotADirectory(dir)`; a failure changes nothing |
| CrateScaffolds.InitCrate | src/generate/crate_scaffolds.rs:65-102 | not a directory: `MissingCrateDir(dir)`; spawn error: that I/O error; failing exit: `CargoInitFailed` with the directory and the captured report; success iff directory and successful exit |
| CrateScaffolds.InstallCargoMake | src/generate/crate_scaffolds.rs:104-125 | the cargo job runs `install --force cargo-make`; a job error becomes a process error, a failing exit `CargoMakeInstallFailed` with the report; success iff the job exits successfully |
| CrateScaffolds.GitignoreContent | src/generate/crate_scaffolds.rs:156-160 | the `.gitignore` text is a newline and `/` followed by the temp dir name, nothing more |
| CrateScaffolds.SetupTreeInCrate | src/generate/crate_scaffolds.rs:146-151 | the temp directory is created inside the project directory, succeeding iff no file blocks its path; a file at the temp path gives `AlreadyExists`, a file above it `NotADirectory` |
| CrateScaffolds.SetupGitInCrate | src/generate/crate_scaffolds.rs:154-162 | `.gitignore` in the project directory is replaced by the gitignore text, overwriting any previous content |
| CrateScaffolds.ScaffoldedTreeShape | src/generate/crate_scaffolds.rs:128-143 | after a successful run the project and temp directories exist, the test spec holds the petstore text in test mode only, `.gitignore` holds its text, and outside test mode every entry present before is unchanged |
| CrateScaffolds.ScaffoldCrate | src/generate/crate_scaffolds.rs:128-143 | success iff every step succeeds in order, leaving the scaffolded tree. The first failing step decides the error and the tree: preparing the directory (test mode: an I/O error; otherwise a file at the directory gives `AlreadyExists`, a file on a strict ancestor `NotADirectory`, an entry `NonEmptyTargetDir`; nothing changed), `cargo init` (the spawn error or `CargoInitFailed`; the prepared tree), the temp dir (`AlreadyExists` for a file at it, `NotADirectory` for a file above it; the prepared tree), `.gitignore` (an I/O error; the tree with the temp dir), the test spec (`TestingYAMLSpecPathMissing` or a YAML I/O error; the tree with `.gitignore`). No rollback |
| FileSystems.FileSystem.CreateDirAll | src/generate/crate_scaffolds.rs:50 | creates the directory and its missing ancestors, failing iff a file lies on the path: `AlreadyExists(p)` when `p` itself is a file, `NotADirectory(p)` when a strict ancestor is; a failure changes nothing |
| FileSystems.FileSystem.RemoveDirAll | src/generate/crate_scaffolds.rs:48 | removes a directory and its whole subtree, failing on a non-directory or the root |
| FileSystems.FileSystem.Write | src/generate/crate_scaffolds.rs:160 | creates or truncates a file whose parent directory exists |
| FileSystems.FileSystem.Read | src/generate/yamls.rs:89 | returns the content of an existing file, failing otherwise |
| FileSystems.FileSystem.HasEntry | src/generate/crate_scaffolds.rs:57 | lists an existing directory and reports whether it has any entry |
| FileSystems.RecreateEmpties | src/generate/crate_scaffolds.rs:47-50 | removing a directory and recreating it leaves it empty, with everything outside it unchanged |
| FileSystems.WithDirsOfDir | src/generate/crate_scaffolds.rs:56 | `create_dir_all` on an existing directory changes nothing |
| Cli.Cli.OutputProjectSubpath | src/generate/crate_scaffolds.rs:148 | a subpath is one component directly below the output project directory |
| Placeholders.TokensOfRender | src/generate/makefiles.rs:136-145 | scanning a rendered template gives back exactly its references in order: tokens are written verbatim. The CLI path, config path, spec download dir and spec path entries are rendered templates, and their token lemmas rest on this |
| Placeholders.FillEmbeds | src/generate/makefiles.rs:223-238 | each bound value of a `format!` template appears in the filled text |

## Left out

- TOML and YAML serialization (`toml::to_string_pretty`, `serde_yaml::to_string`) are foreign libraries. Their outcome is a parameter, either the text or the error.
- The bash scripts inside tasks are left out because an external shell runs them:
  - The condition script is kept as already-trimmed lines, because `trim_lines`/`trim_lines_vec` are not part of this model.
  - The long installer script of `openapi-cli-bash-install` is an opaque value, `OpenApiCliInstaller`. So the task token lemmas do not cover the tokens inside it.
- `make_generate_all_task`: the program template is kept as trimmed lines with the three `format!` holes. Its exact text after `trim_lines` is not modelled.
- `cargo init` is an external process. Its outcome is a parameter (could not be spawned, or exited with a status and report). The files it creates (`Cargo.toml`, `src/`, its own `.gitignore`) are not in the modelled tree. So `SetupGitInCrate` is shown to overwrite any `.gitignore`, but not cargo's in particular.
- `run_cargo_job`: what it returns for an argument list is a parameter of `CrateScaffolds.InstallCargoMake`. The process it spawns is not modelled.
- The `Cli` getters, `CargoConfigurator::new` and the `Paths` strum properties are not part of this model. Each value they return is a field of `Cli.Cli`. `MakefileEnv`'s `OUTPUT_TEMP_DIR` and `setup_tree_in_crate` are assumed to read the same `Paths::TempDir` path.
- `try_get_spec_file_name` resolves to a name. The model carries that name together with the path it denotes (`Cli.SpecFile`).
- `testing::PETSTORE_YAML` is a parameter, `petstore`.
- `crate::fs::write`, the description-taking writer used by `write_to_makefile` (src/generate/makefiles.rs:79) and by `yamls.rs` (src/generate/yamls.rs:90, :104, :126), is not part of this model. `Makefiles.WriteToMakefile`, `Yamls.CopySpecFile`, `Yamls.WriteToYamlFile` and `Yamls.CreateTestingSpecFile` model it as a plain `FileSystems.FileSystem.Write`, which needs the parent directory to exist and ignores the description argument.
- Async, futures and `TryFutureExt` plumbing, and `println!`/`eprintln!` logging, are left out.
- Dead or commented-out code is left out: `make_named_run_task_routing_info` and the commented-out `Lazy<Task>` constants at the end of `makefiles.rs`.
- `CargoMakeTaskFailed` carries a task name. `TaskNames` is not part of this model, so the variant holds a `Makefiles.TaskName`, and no modelled step produces it (the same holds in the source).
- `Makefiles.GenerateAllScriptEmbeds`: the model embeds the configurator YAML untrimmed. The source calls `trim_lines` after `format!`, so the YAML's own lines are trimmed too, and nested YAML loses its indentation there. `trim_lines` is not part of this model.
- `Makefiles.TaskName`: the source names dependencies and tasks by strings. The model writes each as an enumeration value. `Makefiles.NameText` gives its text, `Makefiles.DependencyTexts` shows the dependency lists read back as the source's strings, and `Makefiles.NameTextInjective` shows no two names share a text.
- `Makefiles.EnvTokensNameEntries` and `Makefiles.EnvEntriesNameEntries`: assumes the temp dir name contains no `$`. That name comes from a `Paths` property outside this model. The five entries copied from the command line are excluded, since they hold whatever the user typed.
- Filesystem:
  - permissions, symlinks, races and byte-level content are not modelled;
  - `remove_dir_all` on the root is modelled as a permission error;
  - listing a directory that was just created cannot fail in the model.
