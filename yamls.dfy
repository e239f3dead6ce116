/**
 * The YAML side of generation: the configuration file of the OpenAPI Rust
 * generator, the copy of a local spec file into place, and the petstore
 * spec written for test generation.
 */
module Yamls {
  import opened Wrappers
  import opened FileSystems
  import opened Cli
  import Makefiles

  datatype YamlGenerationError =
    | Io(io: IoError)
    | SerdeYaml(yaml: SerdeYamlError)
    | Parameter(parameter: ParameterError)

  /** The options the OpenAPI Rust generator reads from its config file. */
  datatype OpenApiRustGeneratorConfigs = OpenApiRustGeneratorConfigs(
    bestFitInt: bool,
    enumNameSuffix: string,
    hideGenerationTimestamp: bool,
    library: string,
    packageName: string,
    packageVersion: string,
    preferUnsignedInt: bool,
    supportAsync: bool,
    supportMiddleware: bool,
    supportMultipleResponses: bool,
    useSingleRequestParameter: bool,
    withAwsV4Signature: bool)

  /** `Default::default()`: the generator's own documented defaults. */
  const DEFAULT_CONFIGS: OpenApiRustGeneratorConfigs := OpenApiRustGeneratorConfigs(
    bestFitInt := false,
    enumNameSuffix := "",
    hideGenerationTimestamp := true,
    library := "reqwest",
    packageName := "openapi",
    packageVersion := "1.0.0",
    preferUnsignedInt := false,
    supportAsync := true,
    supportMiddleware := false,
    supportMultipleResponses := false,
    useSingleRequestParameter := false,
    withAwsV4Signature := false)

  /** The names of the boolean options that are switched on. */
  function TrueFlags(c: OpenApiRustGeneratorConfigs): set<string> {
    (if c.bestFitInt then {"bestFitInt"} else {})
    + (if c.hideGenerationTimestamp then {"hideGenerationTimestamp"} else {})
    + (if c.preferUnsignedInt then {"preferUnsignedInt"} else {})
    + (if c.supportAsync then {"supportAsync"} else {})
    + (if c.supportMiddleware then {"supportMiddleware"} else {})
    + (if c.supportMultipleResponses then {"supportMultipleResponses"} else {})
    + (if c.useSingleRequestParameter then {"useSingleRequestParameter"} else {})
    + (if c.withAwsV4Signature then {"withAWSV4Signature"} else {})
  }

  /**
   * The defaults: the `reqwest` library, package `openapi` at `1.0.0`, no
   * enum name suffix, and only the timestamp hiding and async flags on.
   */
  lemma DefaultConfigValues()
    ensures TrueFlags(DEFAULT_CONFIGS) == {"hideGenerationTimestamp", "supportAsync"}
    ensures DEFAULT_CONFIGS.library == "reqwest" && DEFAULT_CONFIGS.packageName == "openapi"
    ensures DEFAULT_CONFIGS.packageVersion == "1.0.0" && DEFAULT_CONFIGS.enumNameSuffix == ""
  {
  }

  /** `OpenAPIRustGeneratorConfigs::new`: the defaults, with the library's name as the package name. */
  function NewConfigs(cli: Cli): (r: OpenApiRustGeneratorConfigs)
    ensures r.packageName == cli.libName
    ensures r.(packageName := DEFAULT_CONFIGS.packageName) == DEFAULT_CONFIGS
    ensures TrueFlags(r) == TrueFlags(DEFAULT_CONFIGS)
  {
    DEFAULT_CONFIGS.(packageName := cli.libName)
  }

  /** Two command lines naming the same library give the same configuration; nothing else is read. */
  lemma NewConfigsDependOnLibName(a: Cli, b: Cli)
    ensures NewConfigs(a) == NewConfigs(b) <==> a.libName == b.libName
  {
    if NewConfigs(a) == NewConfigs(b) {
      assert NewConfigs(a).packageName == NewConfigs(b).packageName;
    }
  }

  /** Where `write_to_yaml_file` puts the configuration. */
  function ConfigPath(cli: Cli): (p: Path)
    ensures |p| > 0 && Parent(p) == cli.outputProjectDir && p[|p| - 1] == Makefiles.OPEN_API_GENERATOR_CONFIG_FILE
  {
    cli.OutputProjectSubpath(Makefiles.OPEN_API_GENERATOR_CONFIG_FILE)
  }

  /**
   * The configuration lands where the task file's environment points the
   * generator: next to `Makefile.toml`, under the name its
   * `OPEN_API_GENERATOR_CONFIG_FILE` entry holds.
   */
  lemma ConfigBesideMakefile(cli: Cli)
    requires Makefiles.MakefileEnvFrom(cli).Success?
    ensures var e := Makefiles.EnvEntries(Makefiles.MakefileEnvFrom(cli).value);
      && ConfigPath(cli) == cli.outputProjectDir + [e["OPEN_API_GENERATOR_CONFIG_FILE"]]
      && Parent(ConfigPath(cli)) == Parent(Makefiles.MakefilePath(cli))
      && ConfigPath(cli) != Makefiles.MakefilePath(cli)
  {
    var c, m := ConfigPath(cli), Makefiles.MakefilePath(cli);
    assert c[|c| - 1] != m[|m| - 1];
  }

  /**
   * `copy_spec_file`: with a local spec path, resolve the spec file name,
   * read the local file and write its content to the spec file; without
   * one, do nothing.
   */
  method CopySpecFile(fs: FileSystem, cli: Cli) returns (r: Result<(), YamlGenerationError>)
    requires fs.Valid()
    modifies fs
    ensures fs.Valid()
    ensures cli.localApiSpecFilepath.None? ==> r == Success(()) && fs.tree == old(fs.tree)
    ensures cli.localApiSpecFilepath.Some? && cli.specFile.Failure? ==>
      r == Failure(Parameter(cli.specFile.error)) && fs.tree == old(fs.tree)
    ensures cli.localApiSpecFilepath.Some? && cli.specFile.Success? ==>
      var src, dst := cli.localApiSpecFilepath.value, cli.specFile.value.path;
      && (r.Success? <==> src in old(fs.tree) && old(fs.tree)[src].File? && CanWrite(old(fs.tree), dst))
      && (r.Success? ==> fs.tree == old(fs.tree)[dst := old(fs.tree)[src]])
    ensures r.Failure? ==> fs.tree == old(fs.tree)
  {
    if cli.localApiSpecFilepath.None? {
      return Success(());
    }
    if cli.specFile.Failure? {
      return Failure(Parameter(cli.specFile.error));
    }
    var src, dst := cli.localApiSpecFilepath.value, cli.specFile.value.path;
    var contents := fs.Read(src);
    if contents.Failure? {
      return Failure(Io(contents.error));
    }
    var written := fs.Write(dst, contents.value);
    if written.Failure? {
      return Failure(Io(written.error));
    }
    r := Success(());
  }

  /**
   * `write_to_yaml_file`: the serialized configuration (`serde_yaml::to_string`,
   * whose outcome is given) is written to the generator config file of the
   * output project; a serializer error stops before any write.
   */
  method WriteToYamlFile(fs: FileSystem, cli: Cli, serialized: Result<string, SerdeYamlError>)
    returns (r: Result<(), YamlGenerationError>)
    requires fs.Valid()
    modifies fs
    ensures fs.Valid()
    ensures serialized.Failure? ==> r == Failure(SerdeYaml(serialized.error)) && fs.tree == old(fs.tree)
    ensures serialized.Success? ==> (r.Success? <==> CanWrite(old(fs.tree), ConfigPath(cli)))
    ensures serialized.Success? && r.Success? ==> fs.tree == old(fs.tree)[ConfigPath(cli) := File(serialized.value)]
    ensures serialized.Success? && r.Failure? ==> r.error.Io? && fs.tree == old(fs.tree)
  {
    if serialized.Failure? {
      return Failure(SerdeYaml(serialized.error));
    }
    var written := fs.Write(ConfigPath(cli), serialized.value);
    if written.Failure? {
      return Failure(Io(written.error));
    }
    r := Success(());
  }

  /**
   * `create_testing_spec_file`: write the bundled petstore spec (given as
   * `petstore`) to the local spec path, which test generation must supply.
   */
  method CreateTestingSpecFile(fs: FileSystem, cli: Cli, petstore: string)
    returns (r: Result<(), YamlGenerationError>)
    requires fs.Valid()
    modifies fs
    ensures fs.Valid()
    ensures cli.localApiSpecFilepath.None? ==>
      r == Failure(Parameter(TestingYAMLSpecPathMissing)) && fs.tree == old(fs.tree)
    ensures cli.localApiSpecFilepath.Some? ==>
      && (r.Success? <==> CanWrite(old(fs.tree), cli.localApiSpecFilepath.value))
      && fs.tree == (if r.Success? then old(fs.tree)[cli.localApiSpecFilepath.value := File(petstore)] else old(fs.tree))
      && (r.Failure? ==> r.error.Io?)
  {
    if cli.localApiSpecFilepath.None? {
      return Failure(Parameter(TestingYAMLSpecPathMissing));
    }
    var written := fs.Write(cli.localApiSpecFilepath.value, petstore);
    if written.Failure? {
      return Failure(Io(written.error));
    }
    r := Success(());
  }
}
