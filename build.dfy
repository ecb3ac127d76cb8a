/** `BuildAndInstall` dispatched on the kind of library. */
module Building {
  import opened Wrappers
  import opened Files
  import opened Libraries
  import Copying
  import CMakeBuild

  /** What `library.BuildAndInstall()` does to the filesystem. */
  function Build(fs: Tree, host: Host, config: Config, lib: Library): Run {
    match lib.kind
    case CMake(_, _) => CMakeBuild.CMakeRun(fs, host, config, lib)
    case Copy(rules) => Copying.ApplyRules(fs, host, SourceDir(config, lib), InstallDir(config, lib), rules)
  }

  method BuildAndInstall(fs: Tree, host: Host, config: Config, lib: Library) returns (r: Run)
    ensures r == Build(fs, host, config, lib)
  {
    match lib.kind
    case CMake(_, _) =>
      r := CMakeBuild.BuildAndInstall(fs, host, config, lib);
    case Copy(rules) =>
      r := Copying.BuildAndInstall(fs, host, SourceDir(config, lib), InstallDir(config, lib), rules);
  }

  /** Where a build may write: the install folder, and for a CMake library
      its build folder. */
  predicate Touches(config: Config, lib: Library, t: Path) {
    InstallDir(config, lib) <= t || (lib.kind.CMake? && CMakeBuild.BuildDir(config, lib) <= t)
  }

  /** A build leaves every other path as it was, whether or not it raises. */
  lemma BuildFrame(fs: Tree, host: Host, config: Config, lib: Library, t: Path)
    requires !Touches(config, lib, t)
    ensures Read(Build(fs, host, config, lib).fs, t) == Read(fs, t)
  {
    match lib.kind
    case CMake(_, _) =>
      CMakeBuild.CMakeFrame(fs, host, config, lib, t);
    case Copy(rules) =>
      Copying.RulesStayInInstallDir(fs, host, SourceDir(config, lib), InstallDir(config, lib), rules, t);
  }
}
