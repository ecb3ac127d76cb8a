/** The data both versions of the tool share: library descriptions, the
    process-wide settings, and the outside world the tool calls into
    (git, md5, glob and cmake) as uninterpreted oracles. */
module Libraries {
  import opened Wrappers
  import opened Files
  import opened Text

  /** One copy rule: a glob pattern relative to the source folder and a
      destination folder relative to the install folder. */
  datatype Rule = Rule(pattern: string, dst: string)

  /** What a library does when it is built: a CMake project, or a list of copy
      rules (`ManualLibrary`; `HeaderLibrary` is a `ManualLibrary` too). */
  datatype Kind =
    | CMake(buildFolder: Path, extraArgs: seq<string>)
    | Copy(rules: seq<Rule>)

  /** `InstallingLibrary`: the source folder below the sources root, the
      install folder below the install root, and the kind. */
  datatype Library = Library(sourceBase: Path, installBase: Path, kind: Kind)

  /** The module globals `SOURCES_ROOT`, `INSTALL_ROOT`, `CACHE_ROOT`,
      `HEADER_SUBDIR`, `CMAKE` and `CMAKE_GLOBAL_ARGS`. The cache root is kept
      as the string given on the command line. */
  datatype Config = Config(
    sourcesRoot: Path,
    installRoot: Path,
    cacheDir: string,
    headerSubdir: Path,
    cmake: string,
    globalArgs: seq<string>)

  /** The exceptions that can leave `InstallLibrary`. */
  datatype Error =
    | CalledProcessError   // a git or cmake process exited non-zero
    | FileNotFoundError    // `shutil.copy2` on a match that is not there
    | NameError            // a call to an undefined name

  /** The outside world, fixed for one run of the tool.
      - git(dir): stdout of `git -C dir rev-parse HEAD`, None when it fails;
      - md5(s): `hashlib.md5(s.encode()).hexdigest()`;
      - glob(fs, root, sub): `glob(str(root / sub), recursive=True)`, in order;
      - cmake(cmd, cwd): whether the cmake invocation `cmd` run in `cwd` exits 0;
      - installed(buildDir): the files `cmake --install` writes below the
        install prefix, by path relative to it. */
  datatype Host = Host(
    git: Path -> Option<string>,
    md5: string -> string,
    glob: (Tree, Path, string) -> seq<Path>,
    cmake: (seq<string>, Path) -> bool,
    installed: Path -> Tree)

  /** The state of the filesystem after an operation, and the exception it
      raised, if any. */
  datatype Run = Run(fs: Tree, error: Option<Error>)

  /** `lib_name`: the name of the source folder. */
  function LibName(lib: Library): string {
    if lib.sourceBase == [] then "" else lib.sourceBase[|lib.sourceBase| - 1]
  }

  /** `source_dir = SOURCES_ROOT / source_dir_base` */
  function SourceDir(config: Config, lib: Library): Path {
    config.sourcesRoot + lib.sourceBase
  }

  /** `install_dir = INSTALL_ROOT / install_dir_base` */
  function InstallDir(config: Config, lib: Library): Path {
    config.installRoot + lib.installBase
  }

  /** The folder of a library's hash file: `CACHE_ROOT / install_dir_base`
      when a cache root is given, otherwise the install folder. */
  function HashFolder(config: Config, lib: Library): (p: Path)
    ensures config.cacheDir == "" ==> p == InstallDir(config, lib)
    ensures config.cacheDir != "" ==> p == PathParts(config.cacheDir) + lib.installBase
  {
    if config.cacheDir != "" then PathParts(config.cacheDir) + lib.installBase else InstallDir(config, lib)
  }

  /** `HeaderLibrary(source_dir_base, install_dir_base, paths)`: a copy library
      installed below the header folder, with one rule per path, in order,
      all with the destination `str(install_dir_base)`. */
  function HeaderLibrary(sourceBase: Path, installSubdir: Path, paths: seq<string>, headerSubdir: Path): (lib: Library)
    ensures lib.sourceBase == sourceBase && lib.installBase == headerSubdir && lib.kind.Copy?
    ensures |lib.kind.rules| == |paths|
    ensures forall i :: 0 <= i < |paths| ==>
      lib.kind.rules[i].pattern == paths[i] && lib.kind.rules[i].dst == PathString(installSubdir)
  {
    Library(sourceBase, headerSubdir, Copy(seq(|paths|, i requires 0 <= i < |paths| => Rule(paths[i], PathString(installSubdir)))))
  }

  /** A header library's rules all copy into the header folder's
      `install_subdir`: the destination string parses back to that folder,
      and an empty folder is written "." . */
  lemma HeaderDestination(sourceBase: Path, installSubdir: Path, paths: seq<string>, headerSubdir: Path)
    requires forall i :: 0 <= i < |installSubdir| ==> IsPart(installSubdir[i])
    ensures var lib := HeaderLibrary(sourceBase, installSubdir, paths, headerSubdir);
      forall i :: 0 <= i < |paths| ==> PathParts(lib.kind.rules[i].dst) == installSubdir
    ensures installSubdir == [] ==> PathString(installSubdir) == "."
  {
    PathRoundTrip(installSubdir);
  }
}
