/** third_party/deps.py: a library object that memoises its git hash and
    build digest, decides from its hash file whether it is up to date, and
    otherwise builds and records the new hashes; `install_libraries` runs the
    objects in order. */
module Deps {
  import opened Wrappers
  import opened Text
  import opened Files
  import opened Libraries
  import opened LineFile
  import opened Orchestration
  import CMakeBuild
  import Building

  /** A value, or the exception that was raised instead. */
  datatype Result<T> = Ok(value: T) | Fail(error: Error)

  /** `GetGitHash()`: the stripped output of `git rev-parse HEAD` in the
      source folder, or `CalledProcessError`. */
  function GitHash(host: Host, config: Config, lib: Library): Result<string> {
    match host.git(SourceDir(config, lib))
    case None => Fail(CalledProcessError)
    case Some(out) => Ok(Strip(out))
  }

  /** `GetBuildHash()`: the md5 digest of the joined configure arguments. */
  function BuildHash(host: Host, config: Config, lib: Library): string
    requires lib.kind.CMake?
  {
    host.md5(CMakeBuild.BuildData(lib.kind.extraArgs, config.globalArgs))
  }

  function HashFileName(lib: Library): string {
    "hash_" + LibName(lib) + ".txt"
  }

  /** The hash file as written: `CACHE_ROOT` is a `Path`, which is always
      true, so the fallback to the install folder is never taken. */
  function HashFileAsWritten(config: Config, lib: Library): (p: Path)
    ensures config.cacheDir != "" ==> p == HashFile(config, lib)
    ensures config.cacheDir == "" ==> p == lib.installBase + [HashFileName(lib)]
  {
    var p := PathParts(config.cacheDir) + lib.installBase + [HashFileName(lib)];
    if config.cacheDir == "" then PathPartsEmpty(config.cacheDir); p else p
  }

  /** The hash file corrected: below the cache root when one is given,
      otherwise in the install folder, as the `--cache-dir` help says. */
  function HashFile(config: Config, lib: Library): (p: Path)
    ensures config.cacheDir == "" ==> p == InstallDir(config, lib) + [HashFileName(lib)]
    ensures config.cacheDir != "" ==> p == PathParts(config.cacheDir) + lib.installBase + [HashFileName(lib)]
  {
    HashFolder(config, lib) + [HashFileName(lib)]
  }

  /** `IsHashRelevant(hash_file)`: the file exists, its line 1 is the git
      hash (a failing git counts as a mismatch), and for a CMake library its
      line 2 is the build digest. */
  predicate Recorded(fs: Tree, host: Host, config: Config, lib: Library, hashFile: Path) {
    && Exists(fs, hashFile)
    && GitHash(host, config, lib).Ok?
    && ReadLineAt(Read(fs, hashFile), 1) == Some(GitHash(host, config, lib).value)
    && (lib.kind.CMake? ==> ReadLineAt(Read(fs, hashFile), 2) == Some(BuildHash(host, config, lib)))
  }

  predicate UpToDate(fs: Tree, host: Host, config: Config, lib: Library) {
    Recorded(fs, host, config, lib, HashFile(config, lib))
  }

  /** `WriteHash(hash_file)`: line 1 gets the git hash, then, for a CMake
      library, line 2 gets the digest. A failing git raises before anything
      is written. */
  function WriteHashRun(fs: Tree, host: Host, config: Config, lib: Library, hashFile: Path): Run {
    match GitHash(host, config, lib)
    case Fail(e) => Run(fs, Some(e))
    case Ok(g) =>
      var fs1 := fs[hashFile := WriteLine(Read(fs, hashFile), 1, g)];
      if lib.kind.CMake? then
        Run(fs1[hashFile := WriteLine(Read(fs1, hashFile), 2, BuildHash(host, config, lib))], None)
      else Run(fs1, None)
  }

  /** `InstallLibrary()`: nothing when up to date; otherwise build, and
      only when the build returns normally write the hash file. */
  function Install(fs: Tree, host: Host, config: Config, lib: Library): (r: Run)
    ensures r.error.Some? ==> !UpToDate(fs, host, config, lib) && r.fs == Building.Build(fs, host, config, lib).fs
  {
    if UpToDate(fs, host, config, lib) then Run(fs, None)
    else
      var b := Building.Build(fs, host, config, lib);
      if b.error.Some? then b
      else WriteHashRun(b.fs, host, config, lib, HashFile(config, lib))
  }

  /** `InstallLibrary()` as written: the hash file is `HashFileAsWritten`,
      line 1 is written with `WriteLineAsWritten`, and `CheckBuildHash` and
      the CMake `WriteHash` call `read_line_at` and `write_line_at`, which
      are not defined, so they raise `NameError` (which nothing catches). */
  function InstallAsWritten(fs: Tree, host: Host, config: Config, lib: Library): (r: Run)
    ensures lib.kind.Copy? && r.error.Some? ==> r.fs == Building.Build(fs, host, config, lib).fs
  {
    var hf := HashFileAsWritten(config, lib);
    var git := GitHash(host, config, lib);
    var lineOk := Exists(fs, hf) && git.Ok? && ReadLineAt(Read(fs, hf), 1) == Some(git.value);
    if lineOk && lib.kind.CMake? then Run(fs, Some(NameError))
    else if lineOk then Run(fs, None)
    else
      var b := Building.Build(fs, host, config, lib);
      if b.error.Some? then b
      else if git.Fail? then Run(b.fs, Some(git.error))
      else
        var fs1 := b.fs[hf := WriteLineAsWritten(Read(b.fs, hf), 1, git.value)];
        if lib.kind.CMake? then Run(fs1, Some(NameError)) else Run(fs1, None)
  }

  /** As written, a CMake library never gets through `InstallLibrary`
      without an exception. */
  lemma CMakeAlwaysRaises(fs: Tree, host: Host, config: Config, lib: Library)
    requires lib.kind.CMake?
    ensures InstallAsWritten(fs, host, config, lib).error.Some?
  {
    var hf := HashFileAsWritten(config, lib);
    var git := GitHash(host, config, lib);
    var lineOk := Exists(fs, hf) && git.Ok? && ReadLineAt(Read(fs, hf), 1) == Some(git.value);
    if lineOk {
      assert InstallAsWritten(fs, host, config, lib) == Run(fs, Some(NameError));
    } else {
      var b := Building.Build(fs, host, config, lib);
      if b.error.Some? {
        assert InstallAsWritten(fs, host, config, lib) == b;
      } else if git.Fail? {
        assert InstallAsWritten(fs, host, config, lib) == Run(b.fs, Some(git.error));
      } else {
        var fs1 := b.fs[hf := WriteLineAsWritten(Read(b.fs, hf), 1, git.value)];
        assert InstallAsWritten(fs, host, config, lib) == Run(fs1, Some(NameError));
      }
    }
  }

  /** A copy library gets the corrected result from the code as written
      when a cache root is given, the hash file lies outside the install
      folder, and the old hash file, if any, ends with a newline. */
  lemma CopyUnaffected(fs: Tree, host: Host, config: Config, lib: Library)
    requires lib.kind.Copy? && config.cacheDir != ""
    requires !Building.Touches(config, lib, HashFile(config, lib))
    requires var c := Read(fs, HashFile(config, lib)); c.Some? && c.value != [] ==> c.value[|c.value| - 1] == '\n'
    ensures InstallAsWritten(fs, host, config, lib) == Install(fs, host, config, lib)
  {
    var hf := HashFile(config, lib);
    assert HashFileAsWritten(config, lib) == hf;
    var git := GitHash(host, config, lib);
    var lineOk := Exists(fs, hf) && git.Ok? && ReadLineAt(Read(fs, hf), 1) == Some(git.value);
    assert UpToDate(fs, host, config, lib) == lineOk;
    if lineOk {
      assert InstallAsWritten(fs, host, config, lib) == Run(fs, None);
      assert Install(fs, host, config, lib) == Run(fs, None);
    } else {
      var b := Building.Build(fs, host, config, lib);
      assert Install(fs, host, config, lib) == if b.error.Some? then b else WriteHashRun(b.fs, host, config, lib, hf);
      if b.error.Some? {
        assert InstallAsWritten(fs, host, config, lib) == b;
      } else if git.Fail? {
        assert InstallAsWritten(fs, host, config, lib) == Run(b.fs, Some(git.error));
        assert WriteHashRun(b.fs, host, config, lib, hf) == Run(b.fs, Some(git.error));
      } else {
        Building.BuildFrame(fs, host, config, lib, hf);
        AsWrittenAgrees(Read(b.fs, hf), 1, git.value);
        var fs1 := b.fs[hf := WriteLine(Read(b.fs, hf), 1, git.value)];
        assert InstallAsWritten(fs, host, config, lib) == Run(fs1, None);
        assert WriteHashRun(b.fs, host, config, lib, hf) == Run(fs1, None);
      }
    }
  }

  /** With no cache root, a copy library that installs without an
      exception is recorded, as written, at `<install base>/hash_<name>.txt`
      and not in its install folder, which the corrected model uses. */
  lemma CopyRecordMisplaced(fs: Tree, host: Host, config: Config, lib: Library)
    requires lib.kind.Copy? && config.cacheDir == ""
    requires config.installRoot != []
    requires !Exists(fs, lib.installBase + [HashFileName(lib)])
    requires InstallAsWritten(fs, host, config, lib).error == None
    ensures Exists(InstallAsWritten(fs, host, config, lib).fs, lib.installBase + [HashFileName(lib)])
    ensures HashFile(config, lib) != lib.installBase + [HashFileName(lib)]
  {
    var hf := HashFileAsWritten(config, lib);
    assert hf == lib.installBase + [HashFileName(lib)];
    var b := Building.Build(fs, host, config, lib);
    var git := GitHash(host, config, lib);
    assert git.Ok? && b.error.None?;
    var fs1 := b.fs[hf := WriteLineAsWritten(Read(b.fs, hf), 1, git.value)];
    assert InstallAsWritten(fs, host, config, lib) == Run(fs1, None);
    assert hf in fs1 && hf <= hf;
    assert |HashFile(config, lib)| == |config.installRoot| + |hf|;
  }

  /** With the default empty `--cache-dir` the code as written puts the hash
      file at `<install base>/hash_<name>.txt` relative to the working
      folder, not in the install folder below the install root. */
  lemma CacheFallbackMissed(config: Config, lib: Library, empty: string)
    requires empty == "" && config.cacheDir == empty
    ensures HashFileAsWritten(config, lib) == lib.installBase + [HashFileName(lib)]
    ensures config.installRoot != [] ==> HashFileAsWritten(config, lib) != HashFile(config, lib)
  {
    assert SplitOn('/', empty) == [""];
    assert Clean([""]) == [];
  }

  lemma NoNewlineTrim(s: string)
    requires '\n' !in s
    ensures TrimNewlines(s) == s && '\n' !in TrimNewlines(s)
  {
    TrimEndOfClean(s, IsNewline);
  }

  /** After a successful install that was not skipped, the library is up to
      date, provided neither hash holds a newline. */
  lemma InstalledIsRecorded(fs: Tree, host: Host, config: Config, lib: Library)
    requires !UpToDate(fs, host, config, lib)
    requires Install(fs, host, config, lib).error == None
    requires host.git(SourceDir(config, lib)).Some? ==> '\n' !in Strip(host.git(SourceDir(config, lib)).value)
    requires lib.kind.CMake? ==> '\n' !in BuildHash(host, config, lib)
    ensures UpToDate(Install(fs, host, config, lib).fs, host, config, lib)
  {
    var hf := HashFile(config, lib);
    var b := Building.Build(fs, host, config, lib);
    assert b.error == None;
    assert Install(fs, host, config, lib) == WriteHashRun(b.fs, host, config, lib, hf);
    var g := GitHash(host, config, lib).value;
    NoNewlineTrim(g);
    var fs1 := b.fs[hf := WriteLine(Read(b.fs, hf), 1, g)];
    ReadAfterWrite(Read(b.fs, hf), 1, g);
    assert ReadLineAt(Read(fs1, hf), 1) == Some(g);
    if lib.kind.CMake? {
      var d := BuildHash(host, config, lib);
      NoNewlineTrim(d);
      var fs2 := fs1[hf := WriteLine(Read(fs1, hf), 2, d)];
      assert WriteHashRun(b.fs, host, config, lib, hf) == Run(fs2, None);
      ReadAfterWrite(Read(fs1, hf), 2, d);
      OtherLinesKept(Read(fs1, hf), 2, d, 1);
      assert ReadLineAt(Read(fs2, hf), 1) == Some(g);
      assert ReadLineAt(Read(fs2, hf), 2) == Some(d);
      assert Recorded(fs2, host, config, lib, hf);
    } else {
      assert WriteHashRun(b.fs, host, config, lib, hf) == Run(fs1, None);
    }
  }

  /** Up to date: nothing is built and nothing is written. */
  lemma SkippedWhenUpToDate(fs: Tree, host: Host, config: Config, lib: Library)
    requires UpToDate(fs, host, config, lib)
    ensures Install(fs, host, config, lib) == Run(fs, None)
  {
  }

  /** A failing git lookup always means a rebuild. */
  lemma GitFailureNotUpToDate(fs: Tree, host: Host, config: Config, lib: Library)
    requires host.git(SourceDir(config, lib)).None?
    ensures !UpToDate(fs, host, config, lib)
    ensures Install(fs, host, config, lib).error.Some?
  {
  }

  /** An exception leaves the old record as it was, when the hash file lies
      outside the folders the build writes (a `--cache-dir` outside the
      install root). In every layout an exception leaves the files as the
      build left them: see the contract of `Install`. */
  lemma FailureKeepsRecord(fs: Tree, host: Host, config: Config, lib: Library)
    requires Install(fs, host, config, lib).error.Some?
    requires !Building.Touches(config, lib, HashFile(config, lib))
    ensures Read(Install(fs, host, config, lib).fs, HashFile(config, lib)) == Read(fs, HashFile(config, lib))
  {
    Building.BuildFrame(fs, host, config, lib, HashFile(config, lib));
  }

  /** An installing library of third_party/deps.py with its memo fields
      `git_hash` and `build_hash`. */
  class CachedLibrary {
    const lib: Library
    const config: Config
    const host: Host
    var gitHash: Option<string>
    var buildHash: Option<string>

    /** A memoised value is the value the oracle gives. */
    ghost predicate Valid()
      reads this
    {
      && (gitHash.Some? ==> GitHash(host, config, lib) == Ok(gitHash.value))
      && (buildHash.Some? ==> lib.kind.CMake? && buildHash.value == BuildHash(host, config, lib))
    }

    constructor(lib: Library, config: Config, host: Host)
      ensures this.lib == lib && this.config == config && this.host == host
      ensures gitHash == None && buildHash == None
      ensures Valid()
    {
      this.lib := lib;
      this.config := config;
      this.host := host;
      gitHash := None;
      buildHash := None;
    }

    method GetGitHash() returns (r: Result<string>)
      requires Valid()
      modifies this
      ensures Valid()
      ensures r == GitHash(host, config, lib)
      ensures buildHash == old(buildHash)
      ensures gitHash == if r.Ok? then Some(r.value) else old(gitHash)
    {
      if gitHash.None? {
        var out := host.git(SourceDir(config, lib));
        if out.None? {
          return Fail(CalledProcessError);
        }
        gitHash := Some(Strip(out.value));
      }
      r := Ok(gitHash.value);
    }

    method GetBuildHash() returns (h: string)
      requires Valid() && lib.kind.CMake?
      modifies this
      ensures Valid()
      ensures h == BuildHash(host, config, lib)
      ensures gitHash == old(gitHash) && buildHash == Some(h)
    {
      if buildHash.None? {
        var data := Join('|', lib.kind.extraArgs + config.globalArgs);
        buildHash := Some(host.md5(data));
      }
      h := buildHash.value;
    }

    /** `CheckGitHash`: a `CalledProcessError` from git is caught and
        counts as a mismatch. */
    method CheckGitHash(fs: Tree, hashFile: Path) returns (b: bool)
      requires Valid()
      modifies this
      ensures Valid() && buildHash == old(buildHash)
      ensures b <==> GitHash(host, config, lib).Ok? && ReadLineAt(Read(fs, hashFile), 1) == Some(GitHash(host, config, lib).value)
    {
      var g := GetGitHash();
      if g.Fail? {
        return false;
      }
      b := Some(g.value) == ReadLineAt(Read(fs, hashFile), 1);
    }

    /** `CheckBuildHash`, reading line 2 with `ReadLineAt`. */
    method CheckBuildHash(fs: Tree, hashFile: Path) returns (b: bool)
      requires Valid() && lib.kind.CMake?
      modifies this
      ensures Valid() && gitHash == old(gitHash)
      ensures b <==> ReadLineAt(Read(fs, hashFile), 2) == Some(BuildHash(host, config, lib))
    {
      var h := GetBuildHash();
      b := Some(h) == ReadLineAt(Read(fs, hashFile), 2);
    }

    /** `IsHashRelevant` of both classes: the CMake one adds the build
        digest check after the inherited one. */
    method IsHashRelevant(fs: Tree, hashFile: Path) returns (b: bool)
      requires Valid()
      modifies this
      ensures Valid()
      ensures b <==> Recorded(fs, host, config, lib, hashFile)
    {
      if !Exists(fs, hashFile) {
        return false;
      }
      b := CheckGitHash(fs, hashFile);
      if b && lib.kind.CMake? {
        b := CheckBuildHash(fs, hashFile);
      }
    }

    /** `WriteHash` of both classes. */
    method WriteHash(fs: Tree, hashFile: Path) returns (r: Run)
      requires Valid()
      modifies this
      ensures Valid()
      ensures r == WriteHashRun(fs, host, config, lib, hashFile)
    {
      var g := GetGitHash();
      if g.Fail? {
        return Run(fs, Some(g.error));
      }
      var cur := WriteLineAt(fs, hashFile, 1, g.value);
      if lib.kind.CMake? {
        var h := GetBuildHash();
        cur := WriteLineAt(cur, hashFile, 2, h);
      }
      r := Run(cur, None);
    }

    /** `InstallLibrary()` */
    method InstallLibrary(fs: Tree) returns (r: Run)
      requires Valid()
      modifies this
      ensures Valid()
      ensures r == Install(fs, host, config, lib)
    {
      var hashFile := HashFolder(config, lib) + ["hash_" + LibName(lib) + ".txt"];
      var relevant := IsHashRelevant(fs, hashFile);
      if relevant {
        return Run(fs, None);
      }
      var b := Building.BuildAndInstall(fs, host, config, lib);
      if b.error.Some? {
        return b;
      }
      r := WriteHash(b.fs, hashFile);
    }
  }

  function Installer(host: Host, config: Config): (Tree, Library) -> Run {
    (fs: Tree, lib: Library) => Install(fs, host, config, lib)
  }

  function Descriptions(objs: seq<CachedLibrary>): (libs: seq<Library>)
    ensures |libs| == |objs| && forall j :: 0 <= j < |objs| ==> libs[j] == objs[j].lib
  {
    seq(|objs|, j requires 0 <= j < |objs| => objs[j].lib)
  }

  /** `install_libraries(libraries)` over the library objects. */
  method InstallLibraries(fs: Tree, host: Host, config: Config, objs: seq<CachedLibrary>) returns (r: Run)
    requires forall j :: 0 <= j < |objs| ==> objs[j].Valid() && objs[j].host == host && objs[j].config == config
    modifies set j | 0 <= j < |objs| :: objs[j]
    ensures r == InstallAll(fs, Descriptions(objs), Present(config), Installer(host, config))
  {
    ghost var libs := Descriptions(objs);
    var cur := fs;
    var i := 0;
    while i < |objs|
      invariant 0 <= i <= |objs|
      invariant forall j :: 0 <= j < |objs| ==> objs[j].Valid()
      invariant InstallAll(fs, libs[..i], Present(config), Installer(host, config)) == Run(cur, None)
    {
      InstallAllStep(fs, libs, Present(config), Installer(host, config), i);
      var obj := objs[i];
      if Exists(cur, SourceDir(config, obj.lib)) {
        var step := obj.InstallLibrary(cur);
        if step.error.Some? {
          r := step;
          InstallAllStops(fs, libs, Present(config), Installer(host, config), i + 1);
          return;
        }
        cur := step.fs;
      }
      i := i + 1;
    }
    assert libs[..i] == libs;
    r := Run(cur, None);
  }
}
