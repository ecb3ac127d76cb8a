/** libs/install_dependencies.py: the earlier version of the tool. A library
    is up to date when its hash file holds the current git commit; libraries
    come from `--cmake-lib`, `--header-lib` and `--manual-lib` groups, and the
    three kinds are parsed and installed one kind after the other. */
module Installer {
  import opened Wrappers
  import opened Text
  import opened Files
  import opened Libraries
  import opened Orchestration
  import Building

  /** `get_git_hash(source_dir)`: the stripped output of
      `git rev-parse HEAD`, or `None` for `CalledProcessError`. */
  function GitHash(host: Host, sourceDir: Path): (h: Option<string>)
    ensures h.Some? <==> host.git(sourceDir).Some?
    ensures h.Some? ==> Strip(h.value) == h.value
  {
    match host.git(sourceDir)
    case None => None
    case Some(out) =>
      StripIdempotent(out);
      Some(Strip(out))
  }

  /** `check_git_hash_match(source_dir, hash_file)`: the commit could be
      read and the hash file, stripped, is that commit. A failing git is
      logged and counts as a mismatch. */
  function CheckGitHashMatch(fs: Tree, host: Host, sourceDir: Path, hashFile: Path): (b: bool)
    ensures b <==> hashFile in fs && GitHash(host, sourceDir) == Some(Strip(fs[hashFile]))
    ensures host.git(sourceDir).None? ==> !b
  {
    && GitHash(host, sourceDir).Some?
    && hashFile in fs
    && Strip(fs[hashFile]) == GitHash(host, sourceDir).value
  }

  /** A hash file holding what `get_git_hash` returns matches. */
  lemma RecordedMatches(fs: Tree, host: Host, sourceDir: Path, hashFile: Path)
    requires host.git(sourceDir).Some?
    ensures CheckGitHashMatch(fs[hashFile := GitHash(host, sourceDir).value], host, sourceDir, hashFile)
  {
    assert Strip(GitHash(host, sourceDir).value) == GitHash(host, sourceDir).value;
  }

  function HashFileName(lib: Library): string {
    "git_hash_" + LibName(lib) + ".txt"
  }

  /** The hash file, in `HashFolder`: `CACHE_ROOT` is the string given on
      the command line here, so an empty one is false and the install folder
      is used. */
  function HashFile(config: Config, lib: Library): Path {
    HashFolder(config, lib) + [HashFileName(lib)]
  }

  predicate UpToDate(fs: Tree, host: Host, config: Config, lib: Library) {
    CheckGitHashMatch(fs, host, SourceDir(config, lib), HashFile(config, lib))
  }

  /** `InstallingLibrary.InstallLibrary()`: nothing when up to date;
      otherwise build, then ask git for the commit again and write it as
      the whole hash file. */
  function Install(fs: Tree, host: Host, config: Config, lib: Library): (r: Run)
    ensures r.error.Some? ==> !UpToDate(fs, host, config, lib) && r.fs == Building.Build(fs, host, config, lib).fs
  {
    if UpToDate(fs, host, config, lib) then Run(fs, None)
    else
      var b := Building.Build(fs, host, config, lib);
      if b.error.Some? then b
      else
        match GitHash(host, SourceDir(config, lib))
        case None => Run(b.fs, Some(CalledProcessError))
        case Some(g) => Run(b.fs[HashFile(config, lib) := g], None)
  }

  method InstallLibrary(fs: Tree, host: Host, config: Config, lib: Library) returns (r: Run)
    ensures r == Install(fs, host, config, lib)
  {
    var hashFile := HashFolder(config, lib) + ["git_hash_" + LibName(lib) + ".txt"];
    var present := Exists(fs, hashFile);
    if present && CheckGitHashMatch(fs, host, SourceDir(config, lib), hashFile) {
      return Run(fs, None);
    }
    var b := Building.BuildAndInstall(fs, host, config, lib);
    if b.error.Some? {
      return b;
    }
    var current := GitHash(host, SourceDir(config, lib));
    if current.None? {
      return Run(b.fs, Some(CalledProcessError));
    }
    r := Run(b.fs[hashFile := current.value], None);
  }

  /** After an install that returns normally the library is up to date: the
      hash file holds the stripped commit, which strips to itself. */
  lemma InstalledIsUpToDate(fs: Tree, host: Host, config: Config, lib: Library)
    requires Install(fs, host, config, lib).error == None
    ensures UpToDate(Install(fs, host, config, lib).fs, host, config, lib)
  {
    if !UpToDate(fs, host, config, lib) {
      var b := Building.Build(fs, host, config, lib);
      var g := GitHash(host, SourceDir(config, lib)).value;
      var hf := HashFile(config, lib);
      assert Install(fs, host, config, lib) == Run(b.fs[hf := g], None);
      assert Strip(g) == g;
    }
  }

  /** An up-to-date library is neither built nor recorded again. */
  lemma SkippedWhenUpToDate(fs: Tree, host: Host, config: Config, lib: Library)
    requires UpToDate(fs, host, config, lib)
    ensures Install(fs, host, config, lib) == Run(fs, None)
  {
  }

  /** A failing git lookup means a rebuild, and the install then raises. */
  lemma GitFailureRaises(fs: Tree, host: Host, config: Config, lib: Library)
    requires host.git(SourceDir(config, lib)).None?
    ensures !UpToDate(fs, host, config, lib)
    ensures Install(fs, host, config, lib).error.Some?
  {
  }

  /** An exception leaves the old hash file as it was, when it lies outside
      the folders the build writes (a `--cache-dir` outside the install
      root). In every layout an exception leaves the files as the build left
      them: see the contract of `Install`. */
  lemma FailureKeepsRecord(fs: Tree, host: Host, config: Config, lib: Library)
    requires Install(fs, host, config, lib).error.Some?
    requires !Building.Touches(config, lib, HashFile(config, lib))
    ensures Read(Install(fs, host, config, lib).fs, HashFile(config, lib)) == Read(fs, HashFile(config, lib))
  {
    Building.BuildFrame(fs, host, config, lib, HashFile(config, lib));
  }

  /** Installing changes nothing but the build's folders and the hash file. */
  lemma InstallFrame(fs: Tree, host: Host, config: Config, lib: Library, t: Path)
    requires !Building.Touches(config, lib, t) && t != HashFile(config, lib)
    ensures Read(Install(fs, host, config, lib).fs, t) == Read(fs, t)
  {
    Building.BuildFrame(fs, host, config, lib, t);
  }

  function Installer(host: Host, config: Config): (Tree, Library) -> Run {
    (fs: Tree, lib: Library) => Install(fs, host, config, lib)
  }

  /** `install_libraries(libraries)`: skip a library whose source folder is
      missing, stop at the first exception. */
  method InstallLibraries(fs: Tree, host: Host, config: Config, libs: seq<Library>) returns (r: Run)
    ensures r == InstallAll(fs, libs, Present(config), Installer(host, config))
  {
    var cur := fs;
    var i := 0;
    while i < |libs|
      invariant 0 <= i <= |libs|
      invariant InstallAll(fs, libs[..i], Present(config), Installer(host, config)) == Run(cur, None)
    {
      InstallAllStep(fs, libs, Present(config), Installer(host, config), i);
      if Exists(cur, SourceDir(config, libs[i])) {
        var step := InstallLibrary(cur, host, config, libs[i]);
        if step.error.Some? {
          InstallAllStops(fs, libs, Present(config), Installer(host, config), i + 1);
          return step;
        }
        cur := step.fs;
      }
      i := i + 1;
    }
    assert libs[..i] == libs;
    r := Run(cur, None);
  }

  /** `parse_cmake_libs`, for one group: exactly four items, the last
      split with `shlex.split` (an oracle, `None` for `ValueError`). */
  function CMakeGroup(group: seq<string>, shlex: string -> Option<seq<string>>): (lib: Option<Library>)
    ensures lib.Some? <==> |group| == 4 && shlex(group[3]).Some?
    ensures lib.Some? ==>
      && lib.value.sourceBase == PathParts(group[0])
      && lib.value.installBase == PathParts(group[1])
      && lib.value.kind == CMake(PathParts(group[2]), shlex(group[3]).value)
  {
    if |group| != 4 then None
    else
      match shlex(group[3])
      case None => None
      case Some(extra) => Some(Library(PathParts(group[0]), PathParts(group[1]), CMake(PathParts(group[2]), extra)))
  }

  /** `parse_header_libs`, for one group: at least three items; every item
      after the second is a header glob. */
  function HeaderGroup(group: seq<string>, headerSubdir: Path): (lib: Option<Library>)
    ensures lib.Some? <==> |group| >= 3
    ensures lib.Some? ==> lib.value == HeaderLibrary(PathParts(group[0]), PathParts(group[1]), group[2..], headerSubdir)
  {
    if |group| < 3 then None
    else Some(HeaderLibrary(PathParts(group[0]), PathParts(group[1]), group[2..], headerSubdir))
  }

  /** `[(xs[i], xs[i + 1]) for i in range(0, len(xs), 2)]` */
  function Pairs(xs: seq<string>): (rules: seq<Rule>)
    requires |xs| % 2 == 0
    ensures |rules| * 2 == |xs|
    ensures forall k :: 0 <= k < |rules| ==> rules[k] == Rule(xs[2 * k], xs[2 * k + 1])
  {
    if xs == [] then [] else [Rule(xs[0], xs[1])] + Pairs(xs[2..])
  }

  /** The items of a list of rules, pattern first. */
  function Unpairs(rules: seq<Rule>): seq<string> {
    if rules == [] then [] else [rules[0].pattern, rules[0].dst] + Unpairs(rules[1..])
  }

  /** Pairing loses and invents no item: flattening the pairs gives the
      items back, in order. */
  lemma {:induction false} PairsRoundTrip(xs: seq<string>)
    requires |xs| % 2 == 0
    ensures Unpairs(Pairs(xs)) == xs
  {
    if xs != [] {
      PairsRoundTrip(xs[2..]);
      var p := Pairs(xs);
      assert p[1..] == Pairs(xs[2..]);
      assert xs == [xs[0], xs[1]] + xs[2..];
    }
  }

  /** `parse_manual_install_libs`, for one group: at least four items and
      an even number after the first two, read as pattern/destination pairs. */
  function ManualGroup(group: seq<string>): (lib: Option<Library>)
    ensures lib.Some? <==> |group| >= 4 && (|group| - 2) % 2 == 0
    ensures lib.Some? ==>
      && lib.value.sourceBase == PathParts(group[0])
      && lib.value.installBase == PathParts(group[1])
      && lib.value.kind.Copy?
      && Unpairs(lib.value.kind.rules) == group[2..]
  {
    if |group| < 4 || (|group| - 2) % 2 != 0 then None
    else
      PairsRoundTrip(group[2..]);
      Some(Library(PathParts(group[0]), PathParts(group[1]), Copy(Pairs(group[2..]))))
  }

  function CMakeParser(shlex: string -> Option<seq<string>>): seq<string> -> Option<Library> {
    (g: seq<string>) => CMakeGroup(g, shlex)
  }

  function HeaderParser(headerSubdir: Path): seq<string> -> Option<Library> {
    (g: seq<string>) => HeaderGroup(g, headerSubdir)
  }

  function ManualParser(): seq<string> -> Option<Library> {
    (g: seq<string>) => ManualGroup(g)
  }

  lemma {:induction false} ParseAllStops<G>(groups: seq<G>, parse: G -> Option<Library>, k: nat)
    requires k <= |groups| && ParseAll(groups[..k], parse).None?
    ensures ParseAll(groups, parse).None?
  {
    if k < |groups| {
      assert groups[..|groups| - 1][..k] == groups[..k];
      ParseAllStops(groups[..|groups| - 1], parse, k);
    } else {
      assert groups[..k] == groups;
    }
  }

  /** The loop shared by `parse_cmake_libs`, `parse_header_libs` and
      `parse_manual_install_libs`, with the per-group check as `parse`. */
  method ParseLibs(groups: seq<seq<string>>, parse: seq<string> -> Option<Library>) returns (r: Option<seq<Library>>)
    ensures r == ParseAll(groups, parse)
  {
    var libs: seq<Library> := [];
    var i := 0;
    while i < |groups|
      invariant 0 <= i <= |groups|
      invariant ParseAll(groups[..i], parse) == Some(libs)
    {
      ParseAllStep(groups, parse, i);
      var lib := parse(groups[i]);
      if lib.None? {
        ParseAllStops(groups, parse, i + 1);
        return None;
      }
      libs := libs + [lib.value];
      i := i + 1;
    }
    assert groups[..i] == groups;
    r := Some(libs);
  }

  /** The parsed command line, with argparse's defaults filled in; an
      absent repeated option is the empty list. */
  datatype Options = Options(
    sourcesDir: string, installDir: string, cacheDir: string,
    cmake: string, cmakeArgs: string, headerSubdir: string,
    cmakeLibs: seq<seq<string>>, headerLibs: seq<seq<string>>, manualLibs: seq<seq<string>>)

  /** How the program ends: the filesystem it leaves, and whether it exits
      normally. */
  datatype Exit = Exit(fs: Tree, success: bool)

  function MakeConfig(o: Options, globalArgs: seq<string>): Config {
    Config(PathParts(o.sourcesDir), PathParts(o.installDir), o.cacheDir, PathParts(o.headerSubdir), o.cmake, globalArgs)
  }

  /** `main()` after `parse_args`: the CMake groups are parsed and
      installed, then the header groups, then the manual groups. A group
      that does not parse exits before anything after it is done, but after
      the earlier kinds were installed. */
  function MainRun(fs: Tree, host: Host, o: Options, shlex: string -> Option<seq<string>>): (e: Exit)
    ensures shlex(o.cmakeArgs).None? ==> e == Exit(fs, false)
    ensures e.success ==>
      && shlex(o.cmakeArgs).Some?
      && ParseAll(o.cmakeLibs, CMakeParser(shlex)).Some?
      && ParseAll(o.headerLibs, HeaderParser(PathParts(o.headerSubdir))).Some?
      && ParseAll(o.manualLibs, ManualParser()).Some?
  {
    match shlex(o.cmakeArgs)
    case None => Exit(fs, false)
    case Some(globalArgs) =>
      var config := MakeConfig(o, globalArgs);
      match ParseAll(o.cmakeLibs, CMakeParser(shlex))
      case None => Exit(fs, false)
      case Some(cm) =>
        var r1 := InstallAll(fs, cm, Present(config), Installer(host, config));
        if r1.error.Some? then Exit(r1.fs, false)
        else
          match ParseAll(o.headerLibs, HeaderParser(config.headerSubdir))
          case None => Exit(r1.fs, false)
          case Some(hd) =>
            var r2 := InstallAll(r1.fs, hd, Present(config), Installer(host, config));
            if r2.error.Some? then Exit(r2.fs, false)
            else
              match ParseAll(o.manualLibs, ManualParser())
              case None => Exit(r2.fs, false)
              case Some(mn) =>
                var r3 := InstallAll(r2.fs, mn, Present(config), Installer(host, config));
                Exit(r3.fs, r3.error.None?)
  }

  method RunMain(fs: Tree, host: Host, o: Options, shlex: string -> Option<seq<string>>) returns (e: Exit)
    ensures e == MainRun(fs, host, o, shlex)
  {
    var globalArgs := shlex(o.cmakeArgs);
    if globalArgs.None? {
      return Exit(fs, false);
    }
    var config := MakeConfig(o, globalArgs.value);
    var cm := ParseLibs(o.cmakeLibs, CMakeParser(shlex));
    if cm.None? {
      return Exit(fs, false);
    }
    var r1 := InstallLibraries(fs, host, config, cm.value);
    if r1.error.Some? {
      return Exit(r1.fs, false);
    }
    var hd := ParseLibs(o.headerLibs, HeaderParser(config.headerSubdir));
    if hd.None? {
      return Exit(r1.fs, false);
    }
    var r2 := InstallLibraries(r1.fs, host, config, hd.value);
    if r2.error.Some? {
      return Exit(r2.fs, false);
    }
    var mn := ParseLibs(o.manualLibs, ManualParser());
    if mn.None? {
      return Exit(r2.fs, false);
    }
    var r3 := InstallLibraries(r2.fs, host, config, mn.value);
    e := Exit(r3.fs, r3.error.None?);
  }

  /** When every group parses, the run is one `install_libraries` over the
      CMake, then the header, then the manual libraries. */
  lemma MainOrder(fs: Tree, host: Host, o: Options, shlex: string -> Option<seq<string>>)
    requires shlex(o.cmakeArgs).Some?
    requires var config := MakeConfig(o, shlex(o.cmakeArgs).value);
      && ParseAll(o.cmakeLibs, CMakeParser(shlex)).Some?
      && ParseAll(o.headerLibs, HeaderParser(config.headerSubdir)).Some?
      && ParseAll(o.manualLibs, ManualParser()).Some?
    ensures var config := MakeConfig(o, shlex(o.cmakeArgs).value);
      var all := ParseAll(o.cmakeLibs, CMakeParser(shlex)).value
        + ParseAll(o.headerLibs, HeaderParser(config.headerSubdir)).value
        + ParseAll(o.manualLibs, ManualParser()).value;
      var r := InstallAll(fs, all, Present(config), Installer(host, config));
      MainRun(fs, host, o, shlex) == Exit(r.fs, r.error.None?)
  {
    var config := MakeConfig(o, shlex(o.cmakeArgs).value);
    var cm := ParseAll(o.cmakeLibs, CMakeParser(shlex)).value;
    var hd := ParseAll(o.headerLibs, HeaderParser(config.headerSubdir)).value;
    var mn := ParseAll(o.manualLibs, ManualParser()).value;
    InstallAllAppend(fs, cm + hd, mn, Present(config), Installer(host, config));
    InstallAllAppend(fs, cm, hd, Present(config), Installer(host, config));
    var r1 := InstallAll(fs, cm, Present(config), Installer(host, config));
    var r12 := InstallAll(fs, cm + hd, Present(config), Installer(host, config));
    var r := InstallAll(fs, cm + hd + mn, Present(config), Installer(host, config));
    if r1.error.Some? {
      assert r12 == r1 && r == r1;
      assert MainRun(fs, host, o, shlex) == Exit(r1.fs, false);
    } else {
      var r2 := InstallAll(r1.fs, hd, Present(config), Installer(host, config));
      assert r12 == r2;
      if r2.error.Some? {
        assert r == r2;
        assert MainRun(fs, host, o, shlex) == Exit(r2.fs, false);
      } else {
        var r3 := InstallAll(r2.fs, mn, Present(config), Installer(host, config));
        assert r == r3;
        assert MainRun(fs, host, o, shlex) == Exit(r3.fs, r3.error.None?);
      }
    }
  }

  /** A malformed `--manual-lib` group is reported only after every CMake
      and header library was installed: the program fails, but leaves their
      installs in place. */
  lemma LateParseError(fs: Tree, host: Host, o: Options, shlex: string -> Option<seq<string>>)
    requires shlex(o.cmakeArgs).Some?
    requires var config := MakeConfig(o, shlex(o.cmakeArgs).value);
      && ParseAll(o.cmakeLibs, CMakeParser(shlex)).Some?
      && ParseAll(o.headerLibs, HeaderParser(config.headerSubdir)).Some?
      && ParseAll(o.manualLibs, ManualParser()).None?
    ensures var config := MakeConfig(o, shlex(o.cmakeArgs).value);
      var r := InstallAll(fs, ParseAll(o.cmakeLibs, CMakeParser(shlex)).value
        + ParseAll(o.headerLibs, HeaderParser(config.headerSubdir)).value, Present(config), Installer(host, config));
      MainRun(fs, host, o, shlex) == Exit(r.fs, false)
  {
    var config := MakeConfig(o, shlex(o.cmakeArgs).value);
    var cm := ParseAll(o.cmakeLibs, CMakeParser(shlex)).value;
    var hd := ParseAll(o.headerLibs, HeaderParser(config.headerSubdir)).value;
    InstallAllAppend(fs, cm, hd, Present(config), Installer(host, config));
  }
}
