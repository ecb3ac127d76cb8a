/** `CMakeLibrary.BuildAndInstall`: configure, build and install a CMake
    project in its build folder, replacing the library's install folder. The
    code is the same in both versions of the tool, apart from when the lock is
    released, which has no effect on the files. */
module CMakeBuild {
  import opened Wrappers
  import opened Text
  import opened Files
  import opened Libraries

  /** `"|".join(extra_args + CMAKE_GLOBAL_ARGS)`: the text whose digest is the
      second line of a CMake library's hash file. */
  function BuildData(extra: seq<string>, global: seq<string>): string {
    Join('|', extra + global)
  }

  /** The configure command: five fixed items (the install prefix and the
      prefix path are printed paths), then the library's own flags, then the
      global ones. */
  function ConfigureCommand(config: Config, installDir: Path, extra: seq<string>): (cmd: seq<string>)
    ensures |cmd| == 5 + |extra| + |config.globalArgs|
    ensures cmd[0] == config.cmake && cmd[1] == "-DCMAKE_BUILD_TYPE=Release" && cmd[4] == ".."
    ensures cmd[2] == "-DCMAKE_INSTALL_PREFIX=" + PathString(installDir)
    ensures cmd[3] == "-DCMAKE_PREFIX_PATH=" + PathString(config.installRoot)
    ensures cmd[5..] == extra + config.globalArgs
  {
    [config.cmake,
     "-DCMAKE_BUILD_TYPE=Release",
     "-DCMAKE_INSTALL_PREFIX=" + PathString(installDir),
     "-DCMAKE_PREFIX_PATH=" + PathString(config.installRoot),
     ".."] + extra + config.globalArgs
  }

  function BuildCommand(cmake: string): seq<string> {
    [cmake, "--build", ".", "--config", "Release", "--parallel"]
  }

  function InstallCommand(cmake: string): seq<string> {
    [cmake, "--install", ".", "--config", "Release"]
  }

  /** `self.source_dir / self.build_dir` */
  function BuildDir(config: Config, lib: Library): Path
    requires lib.kind.CMake?
  {
    SourceDir(config, lib) + lib.kind.buildFolder
  }

  /** The build folder once the lock is held: everything but `.lock` deleted,
      and `.lock` itself truncated by `open(lock_file, "w")`. */
  function LockedBuildDir(fs: Tree, buildDir: Path): Tree {
    RemoveTree(fs, buildDir)[buildDir + [".lock"] := ""]
  }

  /** The whole build: configure, build; on success remove the install
      folder, install, and delete the build folder. A failing cmake run
      raises `CalledProcessError` and ends it. */
  function CMakeRun(fs: Tree, host: Host, config: Config, lib: Library): (r: Run)
    requires lib.kind.CMake?
    ensures r.error.Some? ==> r.error == Some(CalledProcessError)
    ensures r.error.None? <==>
      && host.cmake(ConfigureCommand(config, InstallDir(config, lib), lib.kind.extraArgs), BuildDir(config, lib))
      && host.cmake(BuildCommand(config.cmake), BuildDir(config, lib))
      && host.cmake(InstallCommand(config.cmake), BuildDir(config, lib))
  {
    var installDir := InstallDir(config, lib);
    var buildDir := BuildDir(config, lib);
    var locked := LockedBuildDir(fs, buildDir);
    if !host.cmake(ConfigureCommand(config, installDir, lib.kind.extraArgs), buildDir) then
      Run(locked, Some(CalledProcessError))
    else if !host.cmake(BuildCommand(config.cmake), buildDir) then
      Run(locked, Some(CalledProcessError))
    else
      var cleared := RemoveTree(locked, installDir);
      if !host.cmake(InstallCommand(config.cmake), buildDir) then
        Run(cleared, Some(CalledProcessError))
      else
        Run(RemoveTree(cleared + Rebase(host.installed(buildDir), [], installDir), buildDir), None)
  }

  /** The steps of `CMakeLibrary.BuildAndInstall`, one after the other. */
  method BuildAndInstall(fs: Tree, host: Host, config: Config, lib: Library) returns (r: Run)
    requires lib.kind.CMake?
    ensures r == CMakeRun(fs, host, config, lib)
  {
    var installDir := InstallDir(config, lib);
    var buildDir := SourceDir(config, lib) + lib.kind.buildFolder;
    var cur := RemoveTree(fs, buildDir);
    cur := cur[buildDir + [".lock"] := ""];
    var configure := ConfigureCommand(config, installDir, lib.kind.extraArgs);
    if !host.cmake(configure, buildDir) {
      return Run(cur, Some(CalledProcessError));
    }
    if !host.cmake(BuildCommand(config.cmake), buildDir) {
      return Run(cur, Some(CalledProcessError));
    }
    cur := RemoveTree(cur, installDir);
    if !host.cmake(InstallCommand(config.cmake), buildDir) {
      return Run(cur, Some(CalledProcessError));
    }
    cur := cur + Rebase(host.installed(buildDir), [], installDir);
    cur := RemoveTree(cur, buildDir);
    r := Run(cur, None);
  }

  /** Only the build folder and the install folder are touched. */
  lemma CMakeFrame(fs: Tree, host: Host, config: Config, lib: Library, t: Path)
    requires lib.kind.CMake?
    requires !(InstallDir(config, lib) <= t) && !(BuildDir(config, lib) <= t)
    ensures Read(CMakeRun(fs, host, config, lib).fs, t) == Read(fs, t)
  {
    var installDir := InstallDir(config, lib);
    var buildDir := BuildDir(config, lib);
    assert !(buildDir + [".lock"] <= t);
  }

  /** A failed configure or build leaves the install folder as it was: only
      the build folder has changed. */
  lemma FailedBuildKeepsInstall(fs: Tree, host: Host, config: Config, lib: Library, t: Path)
    requires lib.kind.CMake?
    requires !host.cmake(ConfigureCommand(config, InstallDir(config, lib), lib.kind.extraArgs), BuildDir(config, lib))
      || !host.cmake(BuildCommand(config.cmake), BuildDir(config, lib))
    requires !(BuildDir(config, lib) <= t)
    ensures CMakeRun(fs, host, config, lib).error == Some(CalledProcessError)
    ensures Read(CMakeRun(fs, host, config, lib).fs, t) == Read(fs, t)
  {
    assert !(BuildDir(config, lib) + [".lock"] <= t);
  }

  /** After a successful build the install folder holds exactly what
      `cmake --install` produced (earlier contents are gone) and the build
      folder is deleted, provided neither folder lies inside the other. */
  lemma InstallReplaced(fs: Tree, host: Host, config: Config, lib: Library, t: Path)
    requires lib.kind.CMake?
    requires CMakeRun(fs, host, config, lib).error == None
    requires !(InstallDir(config, lib) <= BuildDir(config, lib)) && !(BuildDir(config, lib) <= InstallDir(config, lib))
    ensures InstallDir(config, lib) <= t ==>
      Read(CMakeRun(fs, host, config, lib).fs, t)
        == Read(host.installed(BuildDir(config, lib)), t[|InstallDir(config, lib)|..])
    ensures BuildDir(config, lib) <= t ==> t !in CMakeRun(fs, host, config, lib).fs
  {
    var installDir := InstallDir(config, lib);
    var buildDir := BuildDir(config, lib);
    if installDir <= t {
      RebaseAt(host.installed(buildDir), [], installDir, t);
      assert [] + t[|installDir|..] == t[|installDir|..];
    }
  }

  /** The digest input is exactly the list of arguments after the five fixed
      items of the configure command. */
  lemma ConfigureFingerprint(config: Config, installDir: Path, extra: seq<string>)
    ensures Join('|', ConfigureCommand(config, installDir, extra)[5..]) == BuildData(extra, config.globalArgs)
  {
  }

  /** Two argument lists with the same digest input are the same lists, when
      neither is empty and no argument holds "|". */
  lemma FingerprintInjective(e1: seq<string>, g1: seq<string>, e2: seq<string>, g2: seq<string>)
    requires |e1 + g1| >= 1 && |e2 + g2| >= 1
    requires forall i :: 0 <= i < |e1 + g1| ==> '|' !in (e1 + g1)[i]
    requires forall i :: 0 <= i < |e2 + g2| ==> '|' !in (e2 + g2)[i]
    requires BuildData(e1, g1) == BuildData(e2, g2)
    ensures e1 + g1 == e2 + g2
  {
    JoinInjective('|', e1 + g1, e2 + g2);
  }

  /** The install prefix handed to cmake names the library's install folder. */
  lemma ConfigurePrefix(config: Config, installDir: Path, extra: seq<string>)
    requires forall i :: 0 <= i < |installDir| ==> IsPart(installDir[i])
    ensures var cmd := ConfigureCommand(config, installDir, extra);
      exists s :: cmd[2] == "-DCMAKE_INSTALL_PREFIX=" + s && PathParts(s) == installDir
  {
    PathRoundTrip(installDir);
    var s := PathString(installDir);
    assert ConfigureCommand(config, installDir, extra)[2] == "-DCMAKE_INSTALL_PREFIX=" + s;
  }
}
