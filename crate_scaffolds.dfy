/**
 * Scaffolding of the target crate: prepare the output project directory
 * (wiped for test generation, required empty otherwise), run `cargo init`,
 * create the temporary directory, write `.gitignore` and, for test
 * generation, the petstore spec.
 */
module CrateScaffolds {
  import opened Wrappers
  import opened FileSystems
  import opened Cli
  import Makefiles
  import Yamls

  /** The error of a cargo job run through the generator's process helper. */
  datatype ProcessError = ProcessError(message: string)

  datatype CrateScaffoldingError =
    | IOError(io: IoError)
    | Process(process: ProcessError)
    | YamlGeneration(yaml: Yamls.YamlGenerationError)
    | NonEmptyTargetDir(dir: Path)
    | MissingCrateDir(dir: Path)
    | CargoMakeTaskFailed(task: Makefiles.TaskName)
    | CargoInitFailed(crateDir: Path, errorString: string)
    | CargoMakeInstallFailed(errorString: string)

  /** What running `cargo init` yields: it could not be spawned, or it exited with a status and a report. */
  datatype CommandOutcome =
    | SpawnFailed(io: IoError)
    | Exited(success: bool, report: string)

  /** What running a cargo job yields: the helper failed, or the job exited with a status and a report. */
  datatype JobOutcome =
    | JobFailed(error: ProcessError)
    | JobExited(success: bool, report: string)

  /** `create_testing_folder`: wipe the output project directory if it is one, then create it. */
  method CreateTestingFolder(fs: FileSystem, cli: Cli) returns (r: Result<(), CrateScaffoldingError>)
    requires fs.Valid()
    modifies fs
    ensures fs.Valid()
    ensures var dir := cli.outputProjectDir;
      && (r.Success? <==>
            if IsDirIn(old(fs.tree), dir) then dir != [] else NoFileOnPath(old(fs.tree), dir))
      && (r.Success? ==>
            && fs.tree == (if IsDirIn(old(fs.tree), dir) then WithDirs(WithoutTree(old(fs.tree), dir), dir)
                           else WithDirs(old(fs.tree), dir))
            && IsDirIn(fs.tree, dir) && Entries(fs.tree, dir) == {}
            && forall q :: q in old(fs.tree) && !IsPrefix(dir, q) ==> q in fs.tree && fs.tree[q] == old(fs.tree)[q])
      && (r.Failure? ==> r.error.IOError? && fs.tree == old(fs.tree))
  {
    var dir := cli.outputProjectDir;
    var start := fs.tree;
    if IsDirIn(fs.tree, dir) {
      var removed := fs.RemoveDirAll(dir);
      if removed.Failure? {
        return Failure(IOError(removed.error));
      }
      forall q | q in Prefixes(dir) && q in fs.tree ensures fs.tree[q].Dir? {
        PrefixesOf(dir, q);
        assert q != dir;
        AncestorsAreDirs(start, dir, q);
      }
      RecreateEmpties(start, dir);
    } else {
      NoEntriesOutsideDirs(start, dir);
      if NoFileOnPath(start, dir) {
        WithDirsMakesDir(start, dir);
      }
    }
    var created := fs.CreateDirAll(dir);
    if created.Failure? {
      return Failure(IOError(created.error));
    }
    r := Success(());
  }

  /**
   * `create_crate_folder_and_check_empty`: create the output project
   * directory if needed and refuse to go on when it holds anything.
   */
  method CreateCrateFolderAndCheckEmpty(fs: FileSystem, cli: Cli) returns (r: Result<(), CrateScaffoldingError>)
    requires fs.Valid()
    modifies fs
    ensures fs.Valid()
    ensures var dir := cli.outputProjectDir;
      && (r.Success? <==> NoFileOnPath(old(fs.tree), dir) && Entries(old(fs.tree), dir) == {})
      && fs.tree == (if NoFileOnPath(old(fs.tree), dir) then WithDirs(old(fs.tree), dir) else old(fs.tree))
      && (NoFileOnPath(old(fs.tree), dir) && Entries(old(fs.tree), dir) != {} ==> r == Failure(NonEmptyTargetDir(dir)))
      && (FileAt(old(fs.tree), dir) ==> r == Failure(IOError(AlreadyExists(dir))))
      && (!NoFileOnPath(old(fs.tree), dir) && !FileAt(old(fs.tree), dir) ==> r == Failure(IOError(NotADirectory(dir))))
      && (r.Success? ==> IsDirIn(fs.tree, dir) && Entries(fs.tree, dir) == {})
      && (r.Failure? ==> fs.tree == old(fs.tree))
  {
    var dir := cli.outputProjectDir;
    var start := fs.tree;
    var created := fs.CreateDirAll(dir);
    if created.Failure? {
      return Failure(IOError(created.error));
    }
    WithDirsMakesDir(start, dir);
    var nonEmpty := fs.HasEntry(dir);
    // The directory exists now, so listing it cannot fail.
    assert nonEmpty.Success?;
    if nonEmpty.value {
      NoEntriesOutsideDirs(start, dir);
      WithDirsOfDir(start, dir);
      return Failure(NonEmptyTargetDir(dir));
    }
    r := Success(());
  }

  /**
   * `init_crate`: the output project directory must exist; then `cargo init
   * --lib` runs on it, with the given outcome. Its effect on the
   * filesystem is not modelled, so the tree is only read.
   */
  method InitCrate(fs: FileSystem, cli: Cli, outcome: CommandOutcome) returns (r: Result<(), CrateScaffoldingError>)
    ensures var dir := cli.outputProjectDir;
      && (!IsDirIn(fs.tree, dir) ==> r == Failure(MissingCrateDir(dir)))
      && (IsDirIn(fs.tree, dir) && outcome.SpawnFailed? ==> r == Failure(IOError(outcome.io)))
      && (IsDirIn(fs.tree, dir) && outcome.Exited? && !outcome.success ==>
            r == Failure(CargoInitFailed(dir, outcome.report)))
      && (r.Success? <==> IsDirIn(fs.tree, dir) && outcome.Exited? && outcome.success)
  {
    var dir := cli.outputProjectDir;
    if !IsDirIn(fs.tree, dir) {
      return Failure(MissingCrateDir(dir));
    }
    match outcome
    case SpawnFailed(e) =>
      r := Failure(IOError(e));
    case Exited(success, report) =>
      if success {
        r := Success(());
      } else {
        r := Failure(CargoInitFailed(dir, report));
      }
  }

  /** The arguments `install_cargo_make` hands to the cargo job. */
  const CARGO_MAKE_INSTALL_ARGS: seq<string> := ["install", "--force", "cargo-make"]

  /**
   * `install_cargo_make`: hands `install --force cargo-make` to the cargo job
   * runner, whose outcome for each argument list is given as `runCargoJob`.
   */
  function InstallCargoMake(runCargoJob: seq<string> -> JobOutcome): (r: Result<(), CrateScaffoldingError>)
    ensures var job := runCargoJob(CARGO_MAKE_INSTALL_ARGS);
      && (r.Success? <==> job.JobExited? && job.success)
      && (job.JobFailed? ==> r == Failure(Process(job.error)))
      && (job.JobExited? && !job.success ==> r == Failure(CargoMakeInstallFailed(job.report)))
  {
    match runCargoJob(CARGO_MAKE_INSTALL_ARGS)
    case JobFailed(e) => Failure(Process(e))
    case JobExited(success, report) =>
      if success then Success(()) else Failure(CargoMakeInstallFailed(report))
  }

  /** The temporary directory inside the crate. */
  function TempDirPath(cli: Cli): Path {
    cli.OutputProjectSubpath(cli.tempDir)
  }

  /** The crate's `.gitignore`. */
  function GitignorePath(cli: Cli): Path {
    cli.OutputProjectSubpath(cli.gitignoreFile)
  }

  /** What `setup_git_in_crate` writes: a line ignoring the temporary directory from the crate root. */
  function GitignoreContent(cli: Cli): (c: string)
    ensures |c| == 2 + |cli.tempDir| && c[..2] == "\n/" && c[2..] == cli.tempDir
  {
    "\n/" + cli.tempDir
  }

  /** `setup_tree_in_crate`: create the temporary directory inside the crate. */
  method SetupTreeInCrate(fs: FileSystem, cli: Cli) returns (r: Result<(), CrateScaffoldingError>)
    requires fs.Valid()
    modifies fs
    ensures fs.Valid()
    ensures r.Success? <==> NoFileOnPath(old(fs.tree), TempDirPath(cli))
    ensures fs.tree == if r.Success? then WithDirs(old(fs.tree), TempDirPath(cli)) else old(fs.tree)
    ensures r.Failure? && FileAt(old(fs.tree), TempDirPath(cli)) ==> r == Failure(IOError(AlreadyExists(TempDirPath(cli))))
    ensures r.Failure? && !FileAt(old(fs.tree), TempDirPath(cli)) ==> r == Failure(IOError(NotADirectory(TempDirPath(cli))))
  {
    var created := fs.CreateDirAll(TempDirPath(cli));
    if created.Failure? {
      return Failure(IOError(created.error));
    }
    r := Success(());
  }

  /** `setup_git_in_crate`: write the crate's `.gitignore`, replacing whatever it held. */
  method SetupGitInCrate(fs: FileSystem, cli: Cli) returns (r: Result<(), CrateScaffoldingError>)
    requires fs.Valid()
    modifies fs
    ensures fs.Valid()
    ensures r.Success? <==> CanWrite(old(fs.tree), GitignorePath(cli))
    ensures fs.tree == if r.Success? then old(fs.tree)[GitignorePath(cli) := File(GitignoreContent(cli))] else old(fs.tree)
    ensures r.Failure? ==> r.error.IOError?
  {
    var written := fs.Write(GitignorePath(cli), GitignoreContent(cli));
    if written.Failure? {
      return Failure(IOError(written.error));
    }
    r := Success(());
  }

  /** The tree once the target directory is prepared: wiped and recreated for test generation, created if absent otherwise. */
  function PreparedTree(t: Tree, cli: Cli): Tree {
    var dir := cli.outputProjectDir;
    if cli.isTestGeneration && IsDirIn(t, dir) then WithDirs(WithoutTree(t, dir), dir) else WithDirs(t, dir)
  }

  /** The tree once the temporary directory is set up as well. */
  function TreeSetUp(t: Tree, cli: Cli): Tree {
    WithDirs(PreparedTree(t, cli), TempDirPath(cli))
  }

  /** The tree once `.gitignore` is written as well. */
  function GitSetUp(t: Tree, cli: Cli): Tree {
    TreeSetUp(t, cli)[GitignorePath(cli) := File(GitignoreContent(cli))]
  }

  /** The tree a successful run leaves: the petstore spec is written last, and in test generation only. */
  function ScaffoldedTree(t: Tree, cli: Cli, petstore: string): Tree {
    if cli.isTestGeneration && cli.localApiSpecFilepath.Some?
    then GitSetUp(t, cli)[cli.localApiSpecFilepath.value := File(petstore)]
    else GitSetUp(t, cli)
  }

  /** The target directory can be prepared: wiped unless it is the root, or checked empty. */
  predicate CanPrepare(t: Tree, cli: Cli) {
    var dir := cli.outputProjectDir;
    if cli.isTestGeneration then (if IsDirIn(t, dir) then dir != [] else NoFileOnPath(t, dir))
    else NoFileOnPath(t, dir) && Entries(t, dir) == {}
  }

  /** `cargo init` ran and exited successfully. */
  predicate InitSucceeds(init: CommandOutcome) {
    init.Exited? && init.success
  }

  /** Once the target directory is prepared, the temporary directory can be created. */
  predicate TempDirFree(t: Tree, cli: Cli) {
    NoFileOnPath(PreparedTree(t, cli), TempDirPath(cli))
  }

  /** Once the temporary directory is set up, `.gitignore` can be written. */
  predicate GitignoreWritable(t: Tree, cli: Cli) {
    CanWrite(TreeSetUp(t, cli), GitignorePath(cli))
  }

  /** Every step of a run starting from `t` succeeds. */
  predicate ScaffoldSucceeds(t: Tree, cli: Cli, init: CommandOutcome) {
    && CanPrepare(t, cli)
    && InitSucceeds(init)
    && TempDirFree(t, cli)
    && GitignoreWritable(t, cli)
    && (cli.isTestGeneration ==>
          cli.localApiSpecFilepath.Some? && CanWrite(GitSetUp(t, cli), cli.localApiSpecFilepath.value))
  }

  /**
   * What a successful run leaves: the crate directory and its temporary
   * directory exist, `.gitignore` ignores the temporary directory (unless
   * the test spec was written over it), the test spec holds the petstore
   * text, and outside test generation nothing that existed is changed.
   */
  lemma ScaffoldedTreeShape(t: Tree, cli: Cli, init: CommandOutcome, petstore: string)
    requires WellFormed(t) && ScaffoldSucceeds(t, cli, init)
    ensures var u := ScaffoldedTree(t, cli, petstore);
      && IsDirIn(u, cli.outputProjectDir)
      && IsDirIn(u, TempDirPath(cli))
      && (cli.isTestGeneration ==>
            && cli.localApiSpecFilepath.value in u && u[cli.localApiSpecFilepath.value] == File(petstore))
      && (!cli.isTestGeneration || cli.localApiSpecFilepath.value != GitignorePath(cli) ==>
            GitignorePath(cli) in u && u[GitignorePath(cli)] == File(GitignoreContent(cli)))
      && (!cli.isTestGeneration ==> forall q :: q in t ==> q in u && u[q] == t[q])
  {
    var dir := cli.outputProjectDir;
    var p := PreparedTree(t, cli);
    if cli.isTestGeneration && IsDirIn(t, dir) {
      forall q | q in Prefixes(dir) && q in WithoutTree(t, dir) ensures WithoutTree(t, dir)[q].Dir? {
        PrefixesOf(dir, q);
        AncestorsAreDirs(t, dir, q);
      }
      RecreateEmpties(t, dir);
      WithoutTreeWellFormed(t, dir);
      WithDirsWellFormed(WithoutTree(t, dir), dir);
    } else {
      WithDirsMakesDir(t, dir);
      WithDirsWellFormed(t, dir);
    }
    assert IsDirIn(p, dir) && WellFormed(p);
    WithDirsMakesDir(p, TempDirPath(cli));
    assert TempDirPath(cli) != GitignorePath(cli);
    if !cli.isTestGeneration {
      assert GitignorePath(cli) !in Entries(t, dir);
    }
  }

  /**
   * `scaffold_crate`: prepare the directory (wiped for test generation,
   * checked empty otherwise), initialize the crate, set up its tree and its
   * `.gitignore`, and for test generation write the petstore spec. The
   * first failing step ends the run with its error, and nothing done before
   * it is undone.
   */
  method ScaffoldCrate(fs: FileSystem, cli: Cli, init: CommandOutcome, petstore: string)
    returns (r: Result<(), CrateScaffoldingError>)
    requires fs.Valid()
    modifies fs
    ensures fs.Valid()
    ensures var dir := cli.outputProjectDir;
      !cli.isTestGeneration && IsDirIn(old(fs.tree), dir) && Entries(old(fs.tree), dir) != {} ==>
        r == Failure(NonEmptyTargetDir(dir)) && fs.tree == old(fs.tree)
    ensures r.Success? <==> ScaffoldSucceeds(old(fs.tree), cli, init)
    ensures r.Success? ==> fs.tree == ScaffoldedTree(old(fs.tree), cli, petstore)
    ensures r.Failure? ==>
      fs.tree in [old(fs.tree), PreparedTree(old(fs.tree), cli), TreeSetUp(old(fs.tree), cli), GitSetUp(old(fs.tree), cli)]
    // The first failing step decides the error, and the tree is left as the steps before it made it.
    ensures var t, dir := old(fs.tree), cli.outputProjectDir;
      !CanPrepare(t, cli) ==>
        && fs.tree == t && r.Failure?
        && (cli.isTestGeneration ==> r.error.IOError?)
        && (!cli.isTestGeneration && FileAt(t, dir) ==> r.error == IOError(AlreadyExists(dir)))
        && (!cli.isTestGeneration && !NoFileOnPath(t, dir) && !FileAt(t, dir) ==> r.error == IOError(NotADirectory(dir)))
        && (!cli.isTestGeneration && NoFileOnPath(t, dir) ==> r.error == NonEmptyTargetDir(dir))
    ensures CanPrepare(old(fs.tree), cli) && !InitSucceeds(init) ==>
      && fs.tree == PreparedTree(old(fs.tree), cli)
      && r == Failure(if init.SpawnFailed? then IOError(init.io) else CargoInitFailed(cli.outputProjectDir, init.report))
    ensures CanPrepare(old(fs.tree), cli) && InitSucceeds(init) && !TempDirFree(old(fs.tree), cli) ==>
      && fs.tree == PreparedTree(old(fs.tree), cli)
      && (FileAt(PreparedTree(old(fs.tree), cli), TempDirPath(cli)) ==> r == Failure(IOError(AlreadyExists(TempDirPath(cli)))))
      && (!FileAt(PreparedTree(old(fs.tree), cli), TempDirPath(cli)) ==> r == Failure(IOError(NotADirectory(TempDirPath(cli)))))
    ensures var t := old(fs.tree);
      CanPrepare(t, cli) && InitSucceeds(init) && TempDirFree(t, cli) && !GitignoreWritable(t, cli) ==>
        fs.tree == TreeSetUp(t, cli) && r.Failure? && r.error.IOError?
    ensures var t := old(fs.tree);
      CanPrepare(t, cli) && InitSucceeds(init) && TempDirFree(t, cli) && GitignoreWritable(t, cli) && cli.isTestGeneration ==>
        && (cli.localApiSpecFilepath.None? ==>
              fs.tree == GitSetUp(t, cli) && r == Failure(YamlGeneration(Yamls.Parameter(TestingYAMLSpecPathMissing))))
        && (cli.localApiSpecFilepath.Some? && !CanWrite(GitSetUp(t, cli), cli.localApiSpecFilepath.value) ==>
              fs.tree == GitSetUp(t, cli) && r.Failure? && r.error.YamlGeneration? && r.error.yaml.Io?)
  {
    var dir := cli.outputProjectDir;
    var start := fs.tree;
    if cli.isTestGeneration {
      var prepared := CreateTestingFolder(fs, cli);
      if prepared.Failure? {
        return prepared;
      }
    } else {
      if IsDirIn(start, dir) && Entries(start, dir) != {} {
        WithDirsOfDir(start, dir);
      }
      var prepared := CreateCrateFolderAndCheckEmpty(fs, cli);
      if prepared.Failure? {
        return prepared;
      }
    }
    assert fs.tree == PreparedTree(start, cli);
    var initialized := InitCrate(fs, cli, init);
    if initialized.Failure? {
      return initialized;
    }
    var tree := SetupTreeInCrate(fs, cli);
    if tree.Failure? {
      return tree;
    }
    var git := SetupGitInCrate(fs, cli);
    if git.Failure? {
      return git;
    }
    if cli.isTestGeneration {
      var spec := Yamls.CreateTestingSpecFile(fs, cli, petstore);
      if spec.Failure? {
        return Failure(YamlGeneration(spec.error));
      }
    }
    r := Success(());
  }
}
