/** The per-stack setup sequences of `src/setup.rs`. Each setup runs a fixed
    plan of steps (clone, rewrite or patch, external command) and stops at
    the first step whose error it propagates with `?`. The run is recorded
    as a trace of the steps taken and whether each succeeded. The outside
    world (network transfer, child processes, TOML codec, the user.go
    pattern) is supplied by the caller as a `World`. */
module Setup {
  import opened Base
  import opened Text
  import opened Files
  import opened RewriteTree
  import opened Manifest
  import opened DatabaseConfig
  import opened Clone
  import opened Replacing

  /** The template URLs and the placeholder module name of the Go template,
      process-wide constants whose values are not part of this model. */
  datatype Config = Config(goUrl: string, rustUrl: string, reactUrl: string, oldModuleName: string)

  datatype Arg = Word(word: string) | PathArg(path: Path)

  /** A child process: program, arguments, and working directory (`None`:
      the current one). */
  datatype Command = Command(program: string, args: seq<Arg>, dir: Option<Path>)

  /** What `Command::output` captures. */
  datatype Output = Output(exitCode: int, stdout: seq<byte>, stderr: seq<byte>)

  /** Everything outside the process: the network transfer behind a clone,
      the exit code of each command run with `status()` (or the error that
      kept it from being spawned), the captured output of each command run
      with `output()`, the TOML codec, and the user.go pattern. */
  datatype World = World(
    transfer: (string, Path) -> Transfer,
    status: Command -> Result<int, IoError>,
    output: Command -> Result<Output, IoError>,
    toml: TomlCodec,
    userPattern: Matcher)

  datatype Step =
    | Fetch(url: string, dest: Path)
    | RewriteModuleName(root: Path)
    | PatchDatabase(root: Path)
    | PatchManifest(root: Path)
    | Run(cmd: Command)

  /** A step that was taken, and whether it succeeded. */
  datatype Effect = Effect(step: Step, ok: bool)

  datatype SetupError =
    | CloneFailed(git: GitError)
    | DatabaseConfigFailed(io: IoError)
    | ManifestFailed(manifest: ManifestError)
    | SpawnFailed(io: IoError)
    | PromptFailed

  /** Every project is created in `base` joined with the project name. */
  function ProjectPath(base: Path, name: string): Path {
    Join(base, name)
  }

  function NpmInstall(dir: Path): Command {
    Command("npm", [Word("install"), Word("--legacy-peer-deps")], Some(dir))
  }

  function GoModTidy(dir: Path): Command {
    Command("go", [Word("mod"), Word("tidy")], Some(dir))
  }

  function CargoNew(path: Path): Command {
    Command("cargo", [Word("new"), PathArg(path)], None)
  }

  function CargoBuild(dir: Path): Command {
    Command("cargo", [Word("build")], Some(dir))
  }

  function CargoInstallGenesis(): Command {
    Command("cargo", [Word("install"), Word("genesis_rs")], None)
  }

  function ReactPlan(cfg: Config, dest: Path): seq<Step> {
    [Fetch(cfg.reactUrl, dest), Run(NpmInstall(dest))]
  }

  function GoPlan(cfg: Config, dest: Path): seq<Step> {
    [Fetch(cfg.goUrl, dest), RewriteModuleName(dest), PatchDatabase(dest), Run(GoModTidy(dest))]
  }

  function BasicRustPlan(dest: Path): seq<Step> {
    [Run(CargoNew(dest))]
  }

  function FullRustPlan(cfg: Config, dest: Path): seq<Step> {
    [Fetch(cfg.rustUrl, dest), PatchManifest(dest), Run(CargoBuild(dest))]
  }

  /** The error policy: the steps of `plan` were taken in order, each
      only after all earlier ones succeeded; the run stops at the first
      failure and then returns an error, and otherwise runs the whole plan
      and returns `Ok`. */
  predicate RanUntilFailure(trace: seq<Effect>, plan: seq<Step>, r: Result<(), SetupError>)
    ensures RanUntilFailure(trace, plan, r) ==>
              (r.Ok? <==> |trace| == |plan| && forall i :: 0 <= i < |trace| ==> trace[i].ok)
  {
    && 0 < |trace| <= |plan|
    && (forall i :: 0 <= i < |trace| ==> trace[i].step == plan[i])
    && (forall i :: 0 <= i < |trace| - 1 ==> trace[i].ok)
    && (r.Ok? <==> trace[|trace| - 1].ok)
    && (trace[|trace| - 1].ok ==> |trace| == |plan|)
  }

  /** Under that policy a failed step is the last one taken and the run
      returns an error; every step before it succeeded, and no later step of
      the plan was taken. */
  lemma FailureEndsRun(trace: seq<Effect>, plan: seq<Step>, r: Result<(), SetupError>, i: nat)
    requires RanUntilFailure(trace, plan, r)
    requires i < |trace| && !trace[i].ok
    ensures trace == trace[..i] + [Effect(plan[i], false)] && r.Err?
    ensures forall j :: 0 <= j < i ==> trace[j] == Effect(plan[j], true)
  {
    assert trace[i] == Effect(plan[i], false);
  }

  /** `setup_react_ts_vite_project`: clone the React template into the
      project directory, then run `npm install --legacy-peer-deps` there. */
  method SetupReactTsViteProject(fs: FileSystem, cfg: Config, world: World, base: Path, name: string)
    returns (r: Result<(), SetupError>, trace: seq<Effect>)
    requires StaysWithin(world.transfer(cfg.reactUrl, ProjectPath(base, name)), ProjectPath(base, name))
    modifies fs
    ensures var dest := ProjectPath(base, name);
            var fetched := world.transfer(cfg.reactUrl, dest).outcome;
            && RanUntilFailure(trace, ReactPlan(cfg, dest), r)
            && trace[0].ok == fetched.Ok?
            && (fetched.Err? ==> r == Err(CloneFailed(fetched.error)) && fs.files == old(fs.files))
            && (fetched.Ok? ==> fs.files == old(fs.files) + fetched.value
                                && trace[1].ok == world.status(NpmInstall(dest)).Ok?
                                && (world.status(NpmInstall(dest)).Err? ==>
                                      r == Err(SpawnFailed(world.status(NpmInstall(dest)).error))))
    ensures fs.writes == old(fs.writes)
  {
    var dest := ProjectPath(base, name);
    var cloned, _ := CloneRepo(fs, cfg.reactUrl, dest, world.transfer);
    trace := [Effect(Fetch(cfg.reactUrl, dest), cloned.Ok?)];
    if cloned.Err? {
      return Err(CloneFailed(cloned.error)), trace;
    }
    var npm := world.status(NpmInstall(dest));
    trace := trace + [Effect(Run(NpmInstall(dest)), npm.Ok?)];
    if npm.Err? {
      return Err(SpawnFailed(npm.error)), trace;
    }
    r := Ok(());
  }

  /** The tree after the two edits `setup_go_project` makes to a fresh
      checkout `files`: the module name replaced across the tree, then the
      database wiring patched in `main.go` and, unless that failed, in the
      user use-case file. */
  ghost function GoConfigured(fs: FileSystem, files: map<Path, seq<byte>>, dest: Path,
                              oldName: seq<byte>, newName: seq<byte>, database: string,
                              userPattern: Matcher): map<Path, seq<byte>>
    requires |oldName| > 0
  {
    var db := SelectDatabase(database);
    var renamed := Renamed(fs, files, dest, oldName, newName);
    if PatchFails(fs, renamed, MainGoPath(dest), MainGoPatch(db)) then renamed
    else AfterPatch(fs, AfterPatch(fs, renamed, MainGoPath(dest), MainGoPatch(db)),
                    UserGoPath(dest), UserGoPatch(db, userPattern))
  }

  /** The database step fails on the renamed tree: one of the two files
      exists but cannot be read as text, or its patch applies and it cannot
      be written. */
  ghost predicate GoConfigFails(fs: FileSystem, files: map<Path, seq<byte>>, dest: Path,
                                oldName: seq<byte>, newName: seq<byte>, database: string,
                                userPattern: Matcher)
    requires |oldName| > 0
  {
    var db := SelectDatabase(database);
    var renamed := Renamed(fs, files, dest, oldName, newName);
    PatchFails(fs, renamed, MainGoPath(dest), MainGoPatch(db))
    || PatchFails(fs, renamed, UserGoPath(dest), UserGoPatch(db, userPattern))
  }

  /** The two edits `setup_go_project` makes to the fresh checkout: the
      module name is replaced across the tree (its errors are reported and
      setup goes on), then the database wiring is patched. */
  method ConfigureGoTemplate(fs: FileSystem, dest: Path, oldName: seq<byte>, newName: seq<byte>,
                             database: string, userPattern: Matcher)
    returns (patched: Result<(), IoError>)
    requires |oldName| > 0
    modifies fs
    ensures patched.Err? <==> GoConfigFails(fs, old(fs.files), dest, oldName, newName, database, userPattern)
    ensures fs.files == GoConfigured(fs, old(fs.files), dest, oldName, newName, database, userPattern)
    ensures old(fs.writes) <= fs.writes
  {
    // Whatever it returns, setup continues.
    var _ := UpdateModuleName(fs, dest, oldName, newName);
    ghost var renamed := fs.files;
    assert renamed == Renamed(fs, old(fs.files), dest, oldName, newName);
    patched := UpdateDatabaseConfig(fs, dest, database, userPattern);
  }

  /** `setup_go_project`: clone the Go template, replace the placeholder
      module name across the tree (its errors are reported and setup goes
      on), patch the database wiring, then run `go mod tidy`. */
  method SetupGoProject(fs: FileSystem, cfg: Config, world: World, base: Path, name: string,
                        moduleName: string, database: string)
    returns (r: Result<(), SetupError>, trace: seq<Effect>)
    requires |cfg.oldModuleName| > 0
    requires StaysWithin(world.transfer(cfg.goUrl, ProjectPath(base, name)), ProjectPath(base, name))
    modifies fs
    ensures var dest := ProjectPath(base, name);
            var fetched := world.transfer(cfg.goUrl, dest).outcome;
            && RanUntilFailure(trace, GoPlan(cfg, dest), r)
            && trace[0].ok == fetched.Ok?
            && (fetched.Err? ==> r == Err(CloneFailed(fetched.error))
                                 && fs.files == old(fs.files) && fs.writes == old(fs.writes))
            && (|trace| == 4 ==> trace[3].ok == world.status(GoModTidy(dest)).Ok?
                                 && (world.status(GoModTidy(dest)).Err? ==>
                                       r == Err(SpawnFailed(world.status(GoModTidy(dest)).error))))
    ensures var dest := ProjectPath(base, name);
            var fetched := world.transfer(cfg.goUrl, dest).outcome;
            var oldName, newName := Utf8(cfg.oldModuleName), Utf8(moduleName);
            fetched.Ok? ==>
              var cloned := old(fs.files) + fetched.value;
              var fails := GoConfigFails(fs, cloned, dest, oldName, newName, database, world.userPattern);
              && trace[1].ok
              && |trace| == (if fails then 3 else 4)
              && trace[2].ok == !fails
              && (r.Err? && r.error.DatabaseConfigFailed? <==> fails)
              && fs.files == GoConfigured(fs, cloned, dest, oldName, newName, database, world.userPattern)
  {
    var dest := ProjectPath(base, name);
    var cloned, _ := CloneRepo(fs, cfg.goUrl, dest, world.transfer);
    trace := [Effect(Fetch(cfg.goUrl, dest), cloned.Ok?)];
    if cloned.Err? {
      return Err(CloneFailed(cloned.error)), trace;
    }
    ghost var checkout := fs.files;
    assert checkout == old(fs.files) + world.transfer(cfg.goUrl, dest).outcome.value;
    var patched := ConfigureGoTemplate(fs, dest, Utf8(cfg.oldModuleName), Utf8(moduleName), database, world.userPattern);
    trace := trace + [Effect(RewriteModuleName(dest), true), Effect(PatchDatabase(dest), patched.Ok?)];
    if patched.Err? {
      return Err(DatabaseConfigFailed(patched.error)), trace;
    }
    var tidy := world.status(GoModTidy(dest));
    trace := trace + [Effect(Run(GoModTidy(dest)), tidy.Ok?)];
    if tidy.Err? {
      return Err(SpawnFailed(tidy.error)), trace;
    }
    r := Ok(());
  }

  /** `setup_basic_rust_project`: run `cargo new` on the project path; only
      a failure to spawn it is an error. What `cargo new` creates is not
      modelled. */
  method SetupBasicRustProject(world: World, dest: Path, name: string)
    returns (r: Result<(), SetupError>, trace: seq<Effect>)
    ensures RanUntilFailure(trace, BasicRustPlan(dest), r)
    ensures r.Ok? <==> world.status(CargoNew(dest)).Ok?
    ensures r.Err? ==> r == Err(SpawnFailed(world.status(CargoNew(dest)).error))
  {
    var created := world.status(CargoNew(dest));
    trace := [Effect(Run(CargoNew(dest)), created.Ok?)];
    if created.Err? {
      return Err(SpawnFailed(created.error)), trace;
    }
    r := Ok(());
  }

  /** What a run of `setup_full_rust_project` in `dest` does, from the tree
      `files0` and write log `writes0` to `files` and `writes`: clone, then
      update `Cargo.toml`, then `cargo build`, stopping at the first failure.
      A clone failure changes nothing; after a clone the manifest step
      succeeds exactly when `Cargo.toml` of the checkout can be updated, and
      the tree is the checkout with that update; only a failure to spawn
      `cargo build` is an error of the last step. */
  ghost predicate FullRustRan(fs: FileSystem, cfg: Config, world: World, dest: Path, name: string,
                              files0: map<Path, seq<byte>>, writes0: seq<Path>,
                              files: map<Path, seq<byte>>, writes: seq<Path>,
                              r: Result<(), SetupError>, trace: seq<Effect>)
  {
    var fetched := world.transfer(cfg.rustUrl, dest).outcome;
    var build := world.status(CargoBuild(dest));
    && RanUntilFailure(trace, FullRustPlan(cfg, dest), r)
    && trace[0].ok == fetched.Ok?
    && (fetched.Err? ==> r == Err(CloneFailed(fetched.error)) && files == files0 && writes == writes0)
    && (fetched.Ok? ==>
          var cloned := files0 + fetched.value;
          && |trace| >= 2
          && trace[1].ok == CargoTomlUpdatable(fs, cloned, dest, world.toml)
          && (r.Err? && r.error.ManifestFailed? <==> !trace[1].ok)
          && files == AfterCargoToml(fs, cloned, dest, name, world.toml))
    && (|trace| == 3 ==> trace[2].ok == build.Ok? && (build.Err? ==> r == Err(SpawnFailed(build.error))))
  }

  /** `setup_full_rust_project`: clone the Rust template, set the package
      name in its `Cargo.toml`, then run `cargo build`. */
  method SetupFullRustProject(fs: FileSystem, cfg: Config, world: World, dest: Path, name: string)
    returns (r: Result<(), SetupError>, trace: seq<Effect>)
    requires StaysWithin(world.transfer(cfg.rustUrl, dest), dest)
    modifies fs
    ensures FullRustRan(fs, cfg, world, dest, name, old(fs.files), old(fs.writes), fs.files, fs.writes, r, trace)
  {
    var cloned, _ := CloneRepo(fs, cfg.rustUrl, dest, world.transfer);
    trace := [Effect(Fetch(cfg.rustUrl, dest), cloned.Ok?)];
    if cloned.Err? {
      return Err(CloneFailed(cloned.error)), trace;
    }
    var manifest := UpdateCargoToml(fs, dest, name, world.toml);
    trace := trace + [Effect(PatchManifest(dest), manifest.Ok?)];
    if manifest.Err? {
      return Err(ManifestFailed(manifest.error)), trace;
    }
    var build := world.status(CargoBuild(dest));
    trace := trace + [Effect(Run(CargoBuild(dest)), build.Ok?)];
    if build.Err? {
      return Err(SpawnFailed(build.error)), trace;
    }
    r := Ok(());
  }

  /** `setup_rust_project`: ask for the project type (index 0: basic,
      index 1: full starter template) and run that setup in the project
      directory. `selection` is the answer of the two-item prompt, `None`
      when the prompt failed. */
  method SetupRustProject(fs: FileSystem, cfg: Config, world: World, base: Path, name: string,
                          selection: Option<nat>)
    returns (r: Result<(), SetupError>, trace: seq<Effect>)
    requires selection.Some? ==> selection.value < 2
    requires StaysWithin(world.transfer(cfg.rustUrl, ProjectPath(base, name)), ProjectPath(base, name))
    modifies fs
    ensures var dest := ProjectPath(base, name);
            && (selection.None? ==> r == Err(PromptFailed) && trace == [])
            && (selection == Some(0) ==>
                  && RanUntilFailure(trace, BasicRustPlan(dest), r)
                  && (r.Ok? <==> world.status(CargoNew(dest)).Ok?)
                  && (r.Err? ==> r == Err(SpawnFailed(world.status(CargoNew(dest)).error))))
            && (selection == Some(1) ==>
                  FullRustRan(fs, cfg, world, dest, name, old(fs.files), old(fs.writes), fs.files, fs.writes, r, trace))
    ensures selection != Some(1) ==> fs.files == old(fs.files) && fs.writes == old(fs.writes)
  {
    var dest := ProjectPath(base, name);
    if selection.None? {
      return Err(PromptFailed), [];
    }
    if selection.value == 0 {
      r, trace := SetupBasicRustProject(world, dest, name);
    } else {
      r, trace := SetupFullRustProject(fs, cfg, world, dest, name);
    }
  }

  /** What `update_genesis` tells the user. */
  datatype UpdateReport = Updated | AlreadyUpToDate | UpdateFailed(stderr: seq<byte>)

  /** `update_genesis`: run `cargo install genesis_rs` and classify its
      output. A failure to spawn it is returned; otherwise the result is
      `Ok` whatever the install did. */
  method UpdateGenesis(world: World) returns (r: Result<UpdateReport, SetupError>, trace: seq<Effect>)
    ensures trace == [Effect(Run(CargoInstallGenesis()), world.output(CargoInstallGenesis()).Ok?)]
    ensures r.Err? <==> world.output(CargoInstallGenesis()).Err?
    ensures r.Ok? ==>
              var out := world.output(CargoInstallGenesis()).value;
              && (r.value == Updated <==> out.exitCode == 0 && Occurs(out.stdout, Utf8("Replacing")))
              && (r.value == AlreadyUpToDate <==> out.exitCode == 0 && !Occurs(out.stdout, Utf8("Replacing")))
              && (r.value.UpdateFailed? <==> out.exitCode != 0)
              && (r.value.UpdateFailed? ==> r.value.stderr == out.stderr)
  {
    var output := world.output(CargoInstallGenesis());
    trace := [Effect(Run(CargoInstallGenesis()), output.Ok?)];
    if output.Err? {
      return Err(SpawnFailed(output.error)), trace;
    }
    var out := output.value;
    if out.exitCode == 0 {
      if Occurs(out.stdout, Utf8("Replacing")) {
        r := Ok(Updated);
      } else {
        r := Ok(AlreadyUpToDate);
      }
    } else {
      r := Ok(UpdateFailed(out.stderr));
    }
  }
}
