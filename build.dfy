/**
 * The command entry points of `lib/build/index.js`: how `getConf` sorts the invocation
 * into an app, a module or neither, which modules a command works on and in what order,
 * and what `build`, `serve`, `deploy`, `publish` and `clone` start.
 *
 * The file system is the two maps of configuration files that exist, keyed by the file's
 * path: `fs.existsSync(p)` is membership and `require(p)` the lookup, which throws for a
 * missing file. The tasks of `lib/build/tasks` other than publish are outcomes given as
 * parameters (`compiles`, `publishes`); a module's build is its configuration loading
 * followed by that outcome.
 */
module Build {
  import opened Wrappers
  import opened Text
  import opened Config

  /** The configuration files that exist and the working directory (`process.cwd()`). */
  datatype FileSystem = FileSystem(rootPath: string, appConfs: map<string, AppConf>, moduleConfs: map<string, ModuleConf>)

  datatype BuildType = App | Module | NoProject

  /** What `getConf` returns; `None` stands for `null`. */
  datatype Conf = Conf(
    appConf: Option<AppConf>,
    moduleConf: Option<ModuleConf>,
    buildType: BuildType,
    appPath: Option<string>,
    modulePath: Option<string>)

  /** The `require` that throws: the configuration file that was missing. */
  datatype ConfError = MissingModuleConf(file: string) | MissingAppConf(file: string)

  function AppConfFile(dir: string): string
  {
    PathJoin(dir, "app-conf.js")
  }

  function ModuleConfFile(dir: string): string
  {
    PathJoin(dir, "module-conf.js")
  }

  /** The app directory `getConf` looks in: the working directory when it holds `app-conf.js`. */
  function AppDir(fs: FileSystem, app: string): string
  {
    if AppConfFile(fs.rootPath) in fs.appConfs then fs.rootPath else PathJoin(fs.rootPath, app)
  }

  /** The module directory `getConf` looks in: the working directory when it holds `module-conf.js`. */
  function ModuleDir(fs: FileSystem, app: string, mod: string): string
  {
    if ModuleConfFile(fs.rootPath) in fs.moduleConfs then fs.rootPath else PathJoin(PathJoin(fs.rootPath, app), mod)
  }

  /**
   * The configuration of an invocation, by case: an app when the app directory holds
   * `app-conf.js` (with the named module's configuration when a module is named), a module
   * when only the module directory holds `module-conf.js` (its app is the parent
   * directory), and neither otherwise. `app` and `mod` are `''` when absent.
   */
  function ConfOf(fs: FileSystem, app: string, mod: string): (r: Result<Conf, ConfError>)
    ensures r.Ok? && r.value.buildType == App ==>
      r.value.appConf.Some? && r.value.appPath.Some? && r.value.modulePath.Some?
    ensures r.Ok? && r.value.buildType == Module ==>
      r.value.appConf.Some? && r.value.moduleConf.Some? && r.value.appPath.Some? && r.value.modulePath.Some?
  {
    var appDir := AppDir(fs, app);
    var modDir := ModuleDir(fs, app, mod);
    if AppConfFile(appDir) in fs.appConfs then
      var appConf := fs.appConfs[AppConfFile(appDir)];
      if mod == [] then Ok(Conf(Some(appConf), None, App, Some(appDir), Some(modDir)))
      else if ModuleConfFile(PathJoin(appDir, mod)) in fs.moduleConfs then
        Ok(Conf(Some(appConf), Some(fs.moduleConfs[ModuleConfFile(PathJoin(appDir, mod))]), App,
                Some(appDir), Some(PathJoin(appDir, mod))))
      else Err(MissingModuleConf(ModuleConfFile(PathJoin(appDir, mod))))
    else if ModuleConfFile(modDir) in fs.moduleConfs then
      var parent := Parent(modDir);
      if AppConfFile(parent) in fs.appConfs then
        Ok(Conf(Some(fs.appConfs[AppConfFile(parent)]), Some(fs.moduleConfs[ModuleConfFile(modDir)]), Module,
                Some(parent), Some(modDir)))
      else Err(MissingAppConf(AppConfFile(parent)))
    else Ok(Conf(None, None, NoProject, None, None))
  }

  /** `getConf(app, mod)`, reassigning the paths step by step as the source does. */
  method GetConf(fs: FileSystem, app: string, mod: string) returns (r: Result<Conf, ConfError>)
    ensures r == ConfOf(fs, app, mod)
  {
    var appPath := PathJoin(fs.rootPath, app);
    var appConfPath := AppConfFile(appPath);
    var modulePath := PathJoin(PathJoin(fs.rootPath, app), mod);
    var moduleConfPath := ModuleConfFile(modulePath);

    if AppConfFile(fs.rootPath) in fs.appConfs {
      appPath := fs.rootPath;
      appConfPath := AppConfFile(appPath);
    }
    if ModuleConfFile(fs.rootPath) in fs.moduleConfs {
      modulePath := fs.rootPath;
      moduleConfPath := ModuleConfFile(modulePath);
    }

    if appConfPath in fs.appConfs {
      var appConf := fs.appConfs[appConfPath];
      var moduleConf: Option<ModuleConf> := None;
      if |mod| > 0 {
        modulePath := PathJoin(appPath, mod);
        var file := ModuleConfFile(modulePath);
        if file !in fs.moduleConfs {
          return Err(MissingModuleConf(file));
        }
        moduleConf := Some(fs.moduleConfs[file]);
      }
      r := Ok(Conf(Some(appConf), moduleConf, App, Some(appPath), Some(modulePath)));
    } else if moduleConfPath in fs.moduleConfs {
      var moduleConf := fs.moduleConfs[moduleConfPath];
      appPath := Parent(modulePath);
      appConfPath := AppConfFile(appPath);
      if appConfPath !in fs.appConfs {
        return Err(MissingAppConf(appConfPath));
      }
      r := Ok(Conf(Some(fs.appConfs[appConfPath]), Some(moduleConf), Module, Some(appPath), Some(modulePath)));
    } else {
      r := Ok(Conf(None, None, NoProject, None, None));
    }
  }

  /**
   * The classification: an app exactly when the app directory holds `app-conf.js`, a
   * module exactly when it does not and the module directory holds `module-conf.js`,
   * and otherwise neither, with both paths `null`.
   */
  lemma ConfKinds(fs: FileSystem, app: string, mod: string)
    ensures var r := ConfOf(fs, app, mod);
      (AppConfFile(AppDir(fs, app)) in fs.appConfs <==>
         ((r.Ok? && r.value.buildType == App) || r == Err(MissingModuleConf(ModuleConfFile(PathJoin(AppDir(fs, app), mod)))))) &&
      (r.Ok? && r.value.buildType == Module <==>
         AppConfFile(AppDir(fs, app)) !in fs.appConfs && ModuleConfFile(ModuleDir(fs, app, mod)) in fs.moduleConfs &&
         AppConfFile(Parent(ModuleDir(fs, app, mod))) in fs.appConfs) &&
      (r.Ok? && r.value.buildType == NoProject <==>
         AppConfFile(AppDir(fs, app)) !in fs.appConfs && ModuleConfFile(ModuleDir(fs, app, mod)) !in fs.moduleConfs) &&
      (r.Ok? && r.value.buildType == NoProject ==> r.value.appPath.None? && r.value.modulePath.None?)
  {
  }

  /**
   * An `app-conf.js` in the working directory makes it the app directory; a
   * `module-conf.js` there makes it the module directory, unless an app names the module.
   */
  lemma ConfWorkingDirectory(fs: FileSystem, app: string, mod: string)
    ensures var r := ConfOf(fs, app, mod);
      AppConfFile(fs.rootPath) in fs.appConfs ==>
        (r.Ok? ==> r.value.buildType == App && r.value.appPath == Some(fs.rootPath))
    ensures var r := ConfOf(fs, app, mod);
      ModuleConfFile(fs.rootPath) in fs.moduleConfs ==>
        (r.Ok? ==> r.value.buildType != NoProject) &&
        (r.Ok? && !(r.value.buildType == App && mod != []) ==> r.value.modulePath == Some(fs.rootPath))
  {
  }

  /**
   * For an app the module's configuration is loaded exactly when a module is named; for a
   * module the app is the parent of the module directory.
   */
  lemma ConfModes(fs: FileSystem, app: string, mod: string)
    ensures var r := ConfOf(fs, app, mod);
      r.Ok? && r.value.buildType == App ==> (r.value.moduleConf.Some? <==> mod != [])
    ensures var r := ConfOf(fs, app, mod);
      r.Ok? && r.value.buildType == Module ==> r.value.appPath == Some(Parent(r.value.modulePath.value))
  {
  }

  // ---------------------------------------------------------------------------
  // Working through the modules one at a time

  /** For an app: the named module alone, or every module of `moduleList`. */
  function ModuleList(appConf: AppConf, mod: string): (r: seq<string>)
    ensures mod != [] ==> r == [mod]
    ensures mod == [] ==> r == appConf.moduleList
  {
    if mod != [] then [mod] else appConf.moduleList
  }

  /**
   * The modules a promise chain over `modules` starts: each after the previous one
   * fulfilled, so the chain stops after the first module whose step rejects.
   */
  function Attempted(modules: seq<string>, step: string -> bool): seq<string>
  {
    if modules == [] then []
    else [modules[0]] + (if step(modules[0]) then Attempted(modules[1..], step) else [])
  }

  /**
   * The chain starts a prefix of the list, in list order; every module but the last one
   * started fulfilled; it stops early only after a rejection; and it starts every module
   * exactly when every step fulfils.
   */
  lemma {:induction false} AttemptedStopsAtFirstFailure(modules: seq<string>, step: string -> bool)
    ensures var a := Attempted(modules, step);
      |a| <= |modules| && a == modules[..|a|] &&
      (forall i :: 0 <= i < |a| - 1 ==> step(a[i])) &&
      (|a| < |modules| ==> |a| > 0 && !step(a[|a| - 1])) &&
      (a == modules && (a == [] || step(a[|a| - 1])) <==> forall i :: 0 <= i < |modules| ==> step(modules[i]))
  {
    if modules != [] {
      var rest := modules[1..];
      AttemptedStopsAtFirstFailure(rest, step);
      var a := Attempted(modules, step);
      if step(modules[0]) {
        var b := Attempted(rest, step);
        assert a == [modules[0]] + b;
        assert forall i :: 0 < i < |a| ==> a[i] == b[i - 1];
        assert a == modules[..|a|] by {
          assert modules == [modules[0]] + rest;
        }
        if forall i :: 0 <= i < |modules| ==> step(modules[i]) {
          assert forall i :: 0 <= i < |rest| ==> step(rest[i]) by {
            forall i | 0 <= i < |rest| ensures step(rest[i]) { assert rest[i] == modules[i + 1]; }
          }
          assert b == rest;
          assert modules == [modules[0]] + rest;
        }
        if a == modules && (a == [] || step(a[|a| - 1])) {
          assert b == rest by { assert rest == modules[1..] == a[1..]; }
          forall i | 0 <= i < |modules| ensures step(modules[i]) {
            if i > 0 { assert modules[i] == rest[i - 1]; }
          }
        }
      } else {
        assert a == [modules[0]];
      }
    }
  }

  /** After a run of fulfilled steps the chain goes on with the rest of the list. */
  lemma {:induction false} AttemptedSplit(modules: seq<string>, step: string -> bool, i: nat)
    requires i <= |modules|
    requires forall j :: 0 <= j < i ==> step(modules[j])
    ensures Attempted(modules, step) == modules[..i] + Attempted(modules[i..], step)
  {
    if i == 0 {
      assert modules[..0] == [] && modules[0..] == modules;
    } else {
      var rest := modules[1..];
      assert forall j :: 0 <= j < i - 1 ==> step(rest[j]) by {
        forall j | 0 <= j < i - 1 ensures step(rest[j]) { assert rest[j] == modules[j + 1]; }
      }
      AttemptedSplit(rest, step, i - 1);
      assert step(modules[0]);
      assert Attempted(modules, step) == [modules[0]] + Attempted(rest, step);
      assert rest[..i - 1] == modules[1..i] && rest[i - 1..] == modules[i..];
      assert [modules[0]] + modules[1..i] == modules[..i];
      ConcatAssoc([modules[0]], modules[1..i], Attempted(modules[i..], step));
    }
  }

  /** The `promsies.reduce` chain: each module's step runs after the previous one fulfilled. */
  method RunInOrder(modules: seq<string>, step: string -> bool) returns (attempted: seq<string>, fulfilled: bool)
    ensures attempted == Attempted(modules, step)
    ensures fulfilled <==> forall i :: 0 <= i < |modules| ==> step(modules[i])
  {
    attempted := [];
    fulfilled := true;
    var i := 0;
    while i < |modules|
      invariant 0 <= i <= |modules|
      invariant fulfilled <==> forall j :: 0 <= j < i ==> step(modules[j])
      invariant fulfilled ==> attempted == modules[..i]
      invariant !fulfilled ==> attempted == Attempted(modules, step)
    {
      if fulfilled {
        AttemptedSplit(modules, step, i);
        assert Attempted(modules[i..], step) ==
          [modules[i]] + (if step(modules[i]) then Attempted(modules[i + 1..], step) else []) by {
          assert modules[i..][1..] == modules[i + 1..];
        }
        attempted := attempted + [modules[i]];
        assert attempted == modules[..i + 1];
        fulfilled := step(modules[i]);
      }
      i := i + 1;
    }
    if fulfilled {
      AttemptedSplit(modules, step, i);
      assert modules[..i] == modules;
    }
  }

  // ---------------------------------------------------------------------------
  // The commands

  /** How a command's promise settles: refused (`false`), or the modules started and whether it fulfilled. */
  datatype Outcome = Refused | Settled(attempted: seq<string>, fulfilled: bool)

  /** `buildSingleModule`: it reloads the configuration for the module, then runs the module's tasks. */
  function BuildsModule(fs: FileSystem, app: string, compiles: string -> bool, m: string): bool
  {
    ConfOf(fs, app, m).Ok? && compiles(m)
  }

  /** The name `buildSingleModule` gives a module when none is named: the loaded module's own. */
  function SingleModule(conf: Conf, mod: string): string
    requires conf.buildType == Module ==> conf.moduleConf.Some?
  {
    if mod != [] then mod
    else if conf.moduleConf.Some? then conf.moduleConf.value.moduleName
    else []
  }

  /**
   * `build(app, mod)`: nothing for neither; for an app the chain over the module list, whose
   * rejection the final `catch` turns into fulfilment; for a module its single build.
   */
  function BuildCommand(fs: FileSystem, app: string, mod: string, compiles: string -> bool): Result<Outcome, ConfError>
  {
    match ConfOf(fs, app, mod)
    case Err(e) => Err(e)
    case Ok(conf) =>
      match conf.buildType
      case NoProject => Ok(Refused)
      case App =>
        Ok(Settled(Attempted(ModuleList(conf.appConf.value, mod), m => BuildsModule(fs, app, compiles, m)), true))
      case Module =>
        var m := SingleModule(conf, mod);
        Ok(Settled([m], BuildsModule(fs, app, compiles, m)))
  }

  /** For an app the modules are built one at a time in list order, and the command always fulfils. */
  lemma BuildAppInOrder(fs: FileSystem, app: string, mod: string, compiles: string -> bool)
    requires ConfOf(fs, app, mod).Ok? && ConfOf(fs, app, mod).value.buildType == App
    ensures var list := ModuleList(ConfOf(fs, app, mod).value.appConf.value, mod);
      var r := BuildCommand(fs, app, mod, compiles);
      r.Ok? && r.value.Settled? && r.value.fulfilled &&
      |r.value.attempted| <= |list| && r.value.attempted == list[..|r.value.attempted|] &&
      (mod != [] ==> r.value.attempted == [mod]) &&
      ((forall i :: 0 <= i < |list| ==> BuildsModule(fs, app, compiles, list[i])) ==> r.value.attempted == list)
  {
    var list := ModuleList(ConfOf(fs, app, mod).value.appConf.value, mod);
    AttemptedStopsAtFirstFailure(list, m => BuildsModule(fs, app, compiles, m));
  }

  /** `p` is a path inside directory `dir`. */
  predicate InDir(p: string, dir: string)
  {
    |dir| < |p| && p[..|dir| + 1] == dir + "/"
  }

  lemma JoinInDir(dir: string, name: string)
    requires dir != [] && name != []
    ensures InDir(PathJoin(dir, name), dir) && EndsWith(PathJoin(dir, name), "/" + name)
  {
    var p := PathJoin(dir, name);
    assert p == (dir + "/") + name;
    assert p[..|dir| + 1] == dir + "/";
    assert p == dir + ("/" + name);
  }

  /** The server settings of `serve` for an app: `.temp`, or the named module's directory and page. */
  datatype ServerParams = ServerParams(baseDir: seq<string>, index: Option<string>)

  function ServerParamsFor(appPath: string, mod: string, page: string): (p: ServerParams)
    ensures |p.baseDir| >= 1 && p.baseDir[0] == PathJoin(appPath, ".temp")
    ensures p.index.Some? <==> page != [] && mod != []
    ensures p.index.Some? ==>
      |p.baseDir| == 2 && EndsWith(p.index.value, "/" + page + ".html") && InDir(p.index.value, p.baseDir[1])
  {
    var tempFolder := PathJoin(appPath, ".temp");
    if page != [] && mod != [] then
      var moduleFolder := PathJoin(tempFolder, mod);
      JoinInDir(moduleFolder, page + ".html");
      ServerParams([tempFolder, moduleFolder], Some(PathJoin(moduleFolder, page + ".html")))
    else ServerParams([tempFolder], None)
  }

  /** What `serve` starts: the build, then a local server for an app or the module's serve task. */
  datatype ServeRun = ServeRefused | AppServe(built: Outcome, server: ServerParams) | ModuleServe(built: Outcome, serving: bool)

  /** `serve(app, mod)`; `page` is the `--page` argument, `''` when absent. */
  function ServeCommand(fs: FileSystem, app: string, mod: string, compiles: string -> bool, page: string): Result<ServeRun, ConfError>
  {
    match ConfOf(fs, app, mod)
    case Err(e) => Err(e)
    case Ok(conf) =>
      match conf.buildType
      case NoProject => Ok(ServeRefused)
      case App =>
        (match BuildCommand(fs, app, mod, compiles)
         case Err(e) => Err(e)
         case Ok(built) => Ok(AppServe(built, ServerParamsFor(conf.appPath.value, mod, page))))
      case Module =>
        var m := SingleModule(conf, mod);
        Ok(ModuleServe(Settled([m], BuildsModule(fs, app, compiles, m)), BuildsModule(fs, app, compiles, m)))
  }

  /** The files `deploy` sends for an app: all of `.temp`, or the named module's part and the index page. */
  function DeployGlob(appPath: string, mod: string): seq<string>
  {
    if mod != [] then [appPath + "/.temp/" + mod + "/**", appPath + "/.temp/index.html"]
    else [appPath + "/.temp/**"]
  }

  /** One FTP upload: the globs and the connection parameters. */
  datatype Upload = Upload(globs: seq<string>, params: DeployParams)

  /**
   * What `deploy` starts: for an app the build and then the upload to the `qiang` remote
   * (`None` when that remote is missing, which rejects); for a module the build and then
   * the module's deploy task when the build fulfilled.
   */
  datatype DeployRun = DeployRefused | AppDeploy(built: Outcome, upload: Option<Upload>) | ModuleDeploy(built: Outcome, deploying: bool)

  function DeployCommand(fs: FileSystem, app: string, mod: string, compiles: string -> bool): Result<DeployRun, ConfError>
  {
    match ConfOf(fs, app, mod)
    case Err(e) => Err(e)
    case Ok(conf) =>
      match conf.buildType
      case NoProject => Ok(DeployRefused)
      case App =>
        var deploy := conf.appConf.value.deploy;
        var upload := if "qiang" in deploy then
            var t := deploy["qiang"];
            Some(Upload(DeployGlob(conf.appPath.value, mod), DeployParams(t.host, t.user, t.pass, t.port, t.remotePath)))
          else None;
        (match BuildCommand(fs, app, mod, compiles)
         case Err(e) => Err(e)
         case Ok(built) => Ok(AppDeploy(built, upload)))
      case Module =>
        var m := SingleModule(conf, mod);
        Ok(ModuleDeploy(Settled([m], BuildsModule(fs, app, compiles, m)), BuildsModule(fs, app, compiles, m)))
  }

  /**
   * For an app the upload follows the build even when a module failed to build, since the
   * build's `catch` fulfils; it sends all of `.temp`, or the module's directory and the index
   * page when a module is named, to the `qiang` remote's directory.
   */
  lemma DeployAfterAnyBuild(fs: FileSystem, app: string, mod: string, compiles: string -> bool)
    requires ConfOf(fs, app, mod).Ok? && ConfOf(fs, app, mod).value.buildType == App
    requires "qiang" in ConfOf(fs, app, mod).value.appConf.value.deploy
    ensures var conf := ConfOf(fs, app, mod).value;
      var t := conf.appConf.value.deploy["qiang"];
      var r := DeployCommand(fs, app, mod, compiles);
      r.Ok? && r.value.AppDeploy? && r.value.built.Settled? && r.value.built.fulfilled &&
      r.value.upload.Some? && r.value.upload.value.params.remotePath == t.remotePath &&
      r.value.upload.value.params.host == t.host &&
      (mod == [] ==> r.value.upload.value.globs == [conf.appPath.value + "/.temp/**"]) &&
      (mod != [] ==>
         r.value.upload.value.globs == [conf.appPath.value + "/.temp/" + mod + "/**", conf.appPath.value + "/.temp/index.html"])
  {
    BuildAppInOrder(fs, app, mod, compiles);
  }

  /** A module of the app is published after its build, with the module directory under the app. */
  function PublishesModule(fs: FileSystem, app: string, compiles: string -> bool, publishes: string -> bool, m: string): bool
  {
    BuildsModule(fs, app, compiles, m) && publishes(m)
  }

  /** `publish(app, mod)`: for an app each module is built and published before the next one starts. */
  function PublishCommand(fs: FileSystem, app: string, mod: string, compiles: string -> bool, publishes: string -> bool): Result<Outcome, ConfError>
  {
    match ConfOf(fs, app, mod)
    case Err(e) => Err(e)
    case Ok(conf) =>
      match conf.buildType
      case NoProject => Ok(Refused)
      case App =>
        Ok(Settled(Attempted(ModuleList(conf.appConf.value, mod), m => PublishesModule(fs, app, compiles, publishes, m)), true))
      case Module =>
        var m := SingleModule(conf, mod);
        Ok(Settled([m], PublishesModule(fs, app, compiles, publishes, m)))
  }

  /** Publishing the app's modules goes module by module and stops after the first one whose build or publication fails. */
  lemma PublishAppInOrder(fs: FileSystem, app: string, mod: string, compiles: string -> bool, publishes: string -> bool)
    requires ConfOf(fs, app, mod).Ok? && ConfOf(fs, app, mod).value.buildType == App
    ensures var list := ModuleList(ConfOf(fs, app, mod).value.appConf.value, mod);
      var r := PublishCommand(fs, app, mod, compiles, publishes);
      r.Ok? && r.value.Settled? && r.value.fulfilled &&
      |r.value.attempted| <= |list| && r.value.attempted == list[..|r.value.attempted|] &&
      (forall i :: 0 <= i < |r.value.attempted| - 1 ==> publishes(r.value.attempted[i])) &&
      (|r.value.attempted| < |list| ==> !PublishesModule(fs, app, compiles, publishes, r.value.attempted[|r.value.attempted| - 1]))
  {
    var list := ModuleList(ConfOf(fs, app, mod).value.appConf.value, mod);
    AttemptedStopsAtFirstFailure(list, m => PublishesModule(fs, app, compiles, publishes, m));
  }

  /** Outside an app or a module, `build` returns `false` and starts nothing. */
  lemma BuildRefusesOutsideProjects(fs: FileSystem, app: string, mod: string, compiles: string -> bool)
    requires ConfOf(fs, app, mod).Ok? && ConfOf(fs, app, mod).value.buildType == NoProject
    ensures BuildCommand(fs, app, mod, compiles) == Ok(Refused)
  {
  }

  /** Outside an app or a module, `serve` returns `false` and starts nothing. */
  lemma ServeRefusesOutsideProjects(fs: FileSystem, app: string, mod: string, compiles: string -> bool, page: string)
    requires ConfOf(fs, app, mod).Ok? && ConfOf(fs, app, mod).value.buildType == NoProject
    ensures ServeCommand(fs, app, mod, compiles, page) == Ok(ServeRefused)
  {
  }

  /** Outside an app or a module, `deploy` returns `false` and starts nothing. */
  lemma DeployRefusesOutsideProjects(fs: FileSystem, app: string, mod: string, compiles: string -> bool)
    requires ConfOf(fs, app, mod).Ok? && ConfOf(fs, app, mod).value.buildType == NoProject
    ensures DeployCommand(fs, app, mod, compiles) == Ok(DeployRefused)
  {
  }

  /** Outside an app or a module, `publish` returns `false` and starts nothing. */
  lemma PublishRefusesOutsideProjects(fs: FileSystem, app: string, mod: string, compiles: string -> bool,
                                      publishes: string -> bool)
    requires ConfOf(fs, app, mod).Ok? && ConfOf(fs, app, mod).value.buildType == NoProject
    ensures PublishCommand(fs, app, mod, compiles, publishes) == Ok(Refused)
  {
  }

  /** What `clone` hands to the clone task, or its refusal. */
  datatype CloneRun = CloneRefused | CloneStarted(modulePath: Option<string>, appPath: Option<string>, widget: string, source: string, dest: string)

  /** `clone(widget, source, dest)`: `source` and `dest` are `''` when absent. */
  function CloneCommand(fs: FileSystem, widget: string, source: string, dest: string): Result<CloneRun, ConfError>
  {
    match ConfOf(fs, [], source)
    case Err(e) => Err(e)
    case Ok(conf) =>
      match conf.buildType
      case NoProject => Ok(CloneRefused)
      case App =>
        if source == [] || dest == [] then Ok(CloneRefused)
        else Ok(CloneStarted(conf.modulePath, conf.appPath, widget, source, dest))
      case Module =>
        var own := conf.moduleConf.value.moduleName;
        Ok(CloneStarted(conf.modulePath, conf.appPath, widget,
                        if source == [] then own else source, if dest == [] then own else dest))
  }

  /**
   * In an app `clone` needs both a source and a destination; in a module each missing one
   * defaults to the module itself.
   */
  lemma CloneDefaults(fs: FileSystem, widget: string, source: string, dest: string)
    ensures var r := CloneCommand(fs, widget, source, dest);
      ConfOf(fs, [], source).Ok? && ConfOf(fs, [], source).value.buildType == App ==>
        (r.Ok? && r.value.CloneStarted? <==> source != [] && dest != []) &&
        (r.Ok? && r.value.CloneStarted? ==> r.value.source == source && r.value.dest == dest)
    ensures var r := CloneCommand(fs, widget, source, dest);
      ConfOf(fs, [], source).Ok? && ConfOf(fs, [], source).value.buildType == Module ==>
        var own := ConfOf(fs, [], source).value.moduleConf.value.moduleName;
        r.Ok? && r.value.CloneStarted? &&
        r.value.source == (if source == [] then own else source) &&
        r.value.dest == (if dest == [] then own else dest) &&
        (own != [] ==> r.value.source != [] && r.value.dest != [])
    ensures ConfOf(fs, [], source).Ok? && ConfOf(fs, [], source).value.buildType == NoProject ==>
      CloneCommand(fs, widget, source, dest) == Ok(CloneRefused)
  {
  }
}
