/**
 * What the generator reads from its command line, after resolution. The
 * command-line parser and its getters are not part of this model: each
 * getter the core calls becomes a field holding the value it returns.
 */
module Cli {
  import opened Wrappers
  import opened FileSystems

  /** The parameter errors the core raises (only the variants it uses). */
  datatype ParameterError =
    | SpecFileNameUnresolved
    | TestingYAMLSpecPathMissing

  datatype CargoConfigError = CargoConfigError(message: string)

  datatype SerdeYamlError = SerdeYamlError(message: string)

  /**
   * What `CargoConfigurator::new` yields for this command line: the
   * generator crate's own name and version, and the configurator's YAML
   * text or the serializer's error.
   */
  datatype CargoConfigurator = CargoConfigurator(
    thisCrateName: string,
    thisCrateVer: string,
    yaml: Result<string, SerdeYamlError>)

  /** The resolved spec file: its name, as the task file records it, and the path it denotes. */
  datatype SpecFile = SpecFile(name: string, path: Path)

  datatype Cli = Cli(
    /** `inner_cli.site_or_api_name` */
    apiName: string,
    /** `inner_cli.api_url` */
    apiUrl: string,
    /** `inner_cli.api_spec_url_opt`: the default spec download URL, if any */
    apiSpecUrl: Option<string>,
    /** `inner_cli.local_api_spec_filepath_opt` */
    localApiSpecFilepath: Option<Path>,
    /** the sub-command is `TestGeneration` */
    isTestGeneration: bool,
    /** `get_lib_name()` */
    libName: string,
    /** `try_get_spec_file_name()` */
    specFile: Result<SpecFile, ParameterError>,
    /** `get_output_project_dir()` */
    outputProjectDir: Path,
    /** the `path` property of `Paths::TempDir` */
    tempDir: string,
    /** the `path` property of `Paths::GitignoreFile` */
    gitignoreFile: string,
    /** `CargoConfigurator::new(cli)` */
    cargoConfigurator: Result<CargoConfigurator, CargoConfigError>)
  {
    /** `get_output_project_subpath`: a path inside the output project directory. */
    function OutputProjectSubpath(name: string): (p: Path)
      ensures |p| == |outputProjectDir| + 1 && IsPrefix(outputProjectDir, p)
    {
      outputProjectDir + [name]
    }
  }
}
