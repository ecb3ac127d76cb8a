/** The command line of third_party/deps.py: global options, then one
    sub-command per library (`add-cmake-lib`, `add-header-lib`,
    `add-manual-lib`). `argparse` and `shlex.split` are oracles that give the
    parsed options, or `None` for an error exit. */
module DepsCli {
  import opened Wrappers
  import opened Text
  import opened Files
  import opened Libraries
  import opened Orchestration
  import opened Grouping
  import CMakeBuild

  const CMakeName: string := "add-cmake-lib"
  const HeaderName: string := "add-header-lib"
  const ManualName: string := "add-manual-lib"

  /** `COMMAND_NAMES` */
  const CommandNames: seq<string> := [CMakeName, HeaderName, ManualName]

  /** The options of the main parser, with argparse's defaults filled in. */
  datatype GlobalOptions = GlobalOptions(
    sourcesDir: string, installDir: string, cacheDir: string,
    headerSubdir: string, cmake: string, cmakeArgs: string)

  datatype CMakeOptions = CMakeOptions(src: string, install: string, buildDir: string, args: string)
  datatype HeaderOptions = HeaderOptions(src: string, installSubdir: string, globs: seq<string>)
  datatype ManualOptions = ManualOptions(src: string, install: string, rules: seq<string>)
  datatype RuleOptions = RuleOptions(src: string, dst: string, ex: Option<string>)

  datatype Parsers = Parsers(
    global: seq<string> -> Option<GlobalOptions>,
    cmake: seq<string> -> Option<CMakeOptions>,
    header: seq<string> -> Option<HeaderOptions>,
    manual: seq<string> -> Option<ManualOptions>,
    rule: seq<string> -> Option<RuleOptions>,
    shlex: string -> Option<seq<string>>)

  /** The module globals set by `main`. */
  function MakeConfig(o: GlobalOptions, globalArgs: seq<string>): Config {
    Config(PathParts(o.sourcesDir), PathParts(o.installDir), o.cacheDir, PathParts(o.headerSubdir), o.cmake, globalArgs)
  }

  /** `CMakeCommand._CreateLibrary` as written: an absent `--install` is
      `""`, so the install folder is the install root itself. */
  function CMakeLibraryAsWritten(o: CMakeOptions, shlex: string -> Option<seq<string>>): (lib: Option<Library>)
    ensures lib.Some? <==> shlex(o.args).Some?
    ensures lib.Some? ==>
      && lib.value.sourceBase == PathParts(o.src)
      && lib.value.installBase == PathParts(o.install)
      && lib.value.kind == CMake(PathParts(o.buildDir), shlex(o.args).value)
  {
    match shlex(o.args)
    case None => None
    case Some(extra) => Some(Library(PathParts(o.src), PathParts(o.install), CMake(PathParts(o.buildDir), extra)))
  }

  /** `CMakeCommand._CreateLibrary` corrected: an absent `--install` means
      the same folder as `--src`, as its help text says. */
  function CMakeLibrary(o: CMakeOptions, shlex: string -> Option<seq<string>>): (lib: Option<Library>)
    ensures o.install != "" ==> lib == CMakeLibraryAsWritten(o, shlex)
    ensures o.install == "" && lib.Some? ==> lib.value.installBase == lib.value.sourceBase
    ensures lib.Some? <==> shlex(o.args).Some?
  {
    var install := if o.install == "" then o.src else o.install;
    match shlex(o.args)
    case None => None
    case Some(extra) => Some(Library(PathParts(o.src), PathParts(install), CMake(PathParts(o.buildDir), extra)))
  }

  /** As written, leaving out `--install` makes the install folder the whole
      install root. */
  lemma DefaultInstallIsRoot(config: Config, o: CMakeOptions, shlex: string -> Option<seq<string>>)
    requires o.install == "" && shlex(o.args).Some?
    ensures CMakeLibraryAsWritten(o, shlex).Some?
    ensures InstallDir(config, CMakeLibraryAsWritten(o, shlex).value) == config.installRoot
  {
    PathPartsEmpty(o.install);
  }

  /** ... and a successful build then replaces everything below the install
      root, other libraries' files included, by what this library installs. */
  lemma DefaultInstallWipesRoot(fs: Tree, host: Host, config: Config, o: CMakeOptions,
                                shlex: string -> Option<seq<string>>, t: Path)
    requires o.install == "" && shlex(o.args).Some?
    requires var lib := CMakeLibraryAsWritten(o, shlex).value;
      && CMakeBuild.CMakeRun(fs, host, config, lib).error == None
      && !(config.installRoot <= CMakeBuild.BuildDir(config, lib))
      && !(CMakeBuild.BuildDir(config, lib) <= config.installRoot)
    requires config.installRoot <= t
    ensures var lib := CMakeLibraryAsWritten(o, shlex).value;
      Read(CMakeBuild.CMakeRun(fs, host, config, lib).fs, t)
        == Read(host.installed(CMakeBuild.BuildDir(config, lib)), t[|config.installRoot|..])
  {
    DefaultInstallIsRoot(config, o, shlex);
    CMakeBuild.InstallReplaced(fs, host, config, CMakeLibraryAsWritten(o, shlex).value, t);
  }

  /** Corrected, leaving out `--install` installs below `<install root>/<src>`. */
  lemma DefaultInstallIsSource(o: CMakeOptions, shlex: string -> Option<seq<string>>)
    requires o.install == "" && shlex(o.args).Some?
    ensures CMakeLibrary(o, shlex).Some?
    ensures CMakeLibrary(o, shlex).value.installBase == PathParts(o.src)
    ensures CMakeLibrary(o, shlex).value.sourceBase == PathParts(o.src)
  {
  }

  /** `HeaderCommand._CreateLibrary` */
  function HeaderLibraryOf(o: HeaderOptions, config: Config): Library {
    HeaderLibrary(PathParts(o.src), PathParts(o.installSubdir), o.globs, config.headerSubdir)
  }

  /** `rule_indices`: the positions of the `rule` tokens, in order. */
  function RuleIndices(ts: seq<string>): (idx: seq<nat>)
    ensures Ordered(ts, idx)
    ensures forall k :: 0 <= k < |idx| ==> ts[idx[k]] == "rule"
    ensures forall j :: 0 <= j < |ts| && ts[j] == "rule" ==> j in idx
  {
    if ts == [] then []
    else
      var init := ts[..|ts| - 1];
      var r := RuleIndices(init);
      assert forall j :: 0 <= j < |init| ==> init[j] == ts[j];
      r + (if ts[|ts| - 1] == "rule" then [|ts| - 1] else [])
  }

  /** Positions in range and strictly increasing, as `RuleIndices` gives them. */
  predicate Ordered(ts: seq<string>, idx: seq<nat>) {
    && (forall k :: 0 <= k < |idx| ==> idx[k] < |ts|)
    && (forall k, l :: 0 <= k < l < |idx| ==> idx[k] < idx[l])
  }

  /** Where rule `i`'s arguments end: at the next `rule` token, or at the end. */
  function RuleEnd(ts: seq<string>, idx: seq<nat>, i: nat): (e: nat)
    requires Ordered(ts, idx) && i < |idx|
    ensures idx[i] < e <= |ts|
  {
    if i + 1 < |idx| then idx[i + 1] else |ts|
  }

  /** `rule_args_list[start:end]` for rule `i`. */
  function RuleArgs(ts: seq<string>, idx: seq<nat>, i: nat): seq<string>
    requires Ordered(ts, idx) && i < |idx|
  {
    ts[idx[i] + 1..RuleEnd(ts, idx, i)]
  }

  /** The first `n` rules parsed in order, stopping at the first failure. */
  function ParseRules(ts: seq<string>, idx: seq<nat>, n: nat, parse: seq<string> -> Option<RuleOptions>): Option<seq<Rule>>
    requires Ordered(ts, idx) && n <= |idx|
  {
    if n == 0 then Some([])
    else
      match ParseRules(ts, idx, n - 1, parse)
      case None => None
      case Some(ps) =>
        match parse(RuleArgs(ts, idx, n - 1))
        case None => None
        case Some(o) => Some(ps + [Rule(o.src, o.dst)])
  }

  /** What the rule loop of `ManualCommand._CreateLibrary` produces: an
      error unless the remainder starts with `rule`, otherwise one
      `(src, dst)` pair per rule. */
  function ManualRulesSpec(ts: seq<string>, parse: seq<string> -> Option<RuleOptions>): Option<seq<Rule>> {
    var idx := RuleIndices(ts);
    if idx == [] || ts[0] != "rule" then None
    else ParseRules(ts, idx, |idx|, parse)
  }

  lemma {:induction false} ParseRulesStop(ts: seq<string>, idx: seq<nat>, k: nat, n: nat, parse: seq<string> -> Option<RuleOptions>)
    requires Ordered(ts, idx) && k <= n <= |idx| && ParseRules(ts, idx, k, parse).None?
    ensures ParseRules(ts, idx, n, parse).None?
  {
    if n > k {
      ParseRulesStop(ts, idx, k, n - 1, parse);
    }
  }

  /** The rule segmentation of `ManualCommand._CreateLibrary`. */
  method ManualRules(ts: seq<string>, parse: seq<string> -> Option<RuleOptions>) returns (r: Option<seq<Rule>>)
    ensures r == ManualRulesSpec(ts, parse)
  {
    var idx := RuleIndices(ts);
    if idx == [] || ts[0] != "rule" {
      return None;
    }
    r := ParseEachRule(ts, idx, parse);
  }

  /** `for i in range(len(rule_indices))`: cut out each rule's arguments
      and parse them, exiting at the first that does not parse. */
  method ParseEachRule(ts: seq<string>, idx: seq<nat>, parse: seq<string> -> Option<RuleOptions>) returns (r: Option<seq<Rule>>)
    requires Ordered(ts, idx)
    ensures r == ParseRules(ts, idx, |idx|, parse)
  {
    var pairs: seq<Rule> := [];
    var i := 0;
    while i < |idx|
      invariant 0 <= i <= |idx|
      invariant ParseRules(ts, idx, i, parse) == Some(pairs)
    {
      var start := idx[i] + 1;
      var end := RuleEnd(ts, idx, i);
      var o := parse(ts[start..end]);
      if o.None? {
        ParseRulesStop(ts, idx, i + 1, |idx|, parse);
        return None;
      }
      pairs := pairs + [Rule(o.value.src, o.value.dst)];
      i := i + 1;
    }
    r := Some(pairs);
  }

  /** Rule parsing succeeds exactly when every rule's arguments parse; there
      is then one pair per rule, in order, taken from its `--src` and
      `--dst`. */
  lemma {:induction false} ParseRulesSpec(ts: seq<string>, idx: seq<nat>, n: nat, parse: seq<string> -> Option<RuleOptions>)
    requires Ordered(ts, idx) && n <= |idx|
    ensures ParseRules(ts, idx, n, parse).Some? <==> forall i :: 0 <= i < n ==> parse(RuleArgs(ts, idx, i)).Some?
    ensures ParseRules(ts, idx, n, parse).Some? ==>
      |ParseRules(ts, idx, n, parse).value| == n &&
      forall i :: 0 <= i < n ==>
        ParseRules(ts, idx, n, parse).value[i] == Rule(parse(RuleArgs(ts, idx, i)).value.src, parse(RuleArgs(ts, idx, i)).value.dst)
  {
    if n > 0 {
      ParseRulesSpec(ts, idx, n - 1, parse);
    }
  }

  /** Without a leading `rule` token the rule loop is an error. */
  lemma ManualRulesNeedRule(ts: seq<string>, parse: seq<string> -> Option<RuleOptions>)
    requires ts == [] || ts[0] != "rule"
    ensures ManualRulesSpec(ts, parse).None?
  {
  }

  /** With a leading `rule` token, the loop succeeds exactly when every
      rule's arguments parse, and then gives one pair per `rule` token, in
      order. */
  lemma ManualRulesShape(ts: seq<string>, parse: seq<string> -> Option<RuleOptions>)
    requires ts != [] && ts[0] == "rule"
    ensures var idx := RuleIndices(ts);
      ManualRulesSpec(ts, parse) == ParseRules(ts, idx, |idx|, parse)
  {
    var idx := RuleIndices(ts);
    assert 0 in idx;
  }

  /** `--ex` never changes the rules: two parsers that agree on `--src` and
      `--dst` give the same pairs. */
  lemma {:induction false} ExcludeIgnored(ts: seq<string>, idx: seq<nat>, n: nat,
                                          p: seq<string> -> Option<RuleOptions>, q: seq<string> -> Option<RuleOptions>)
    requires Ordered(ts, idx) && n <= |idx|
    requires forall a :: p(a).Some? <==> q(a).Some?
    requires forall a :: p(a).Some? ==> p(a).value.src == q(a).value.src && p(a).value.dst == q(a).value.dst
    ensures ParseRules(ts, idx, n, p) == ParseRules(ts, idx, n, q)
  {
    if n > 0 {
      ExcludeIgnored(ts, idx, n - 1, p, q);
    }
  }

  /** A rule's arguments hold no `rule` token. */
  lemma RuleArgsClean(ts: seq<string>, i: nat)
    requires i < |RuleIndices(ts)|
    ensures "rule" !in RuleArgs(ts, RuleIndices(ts), i)
  {
    var idx := RuleIndices(ts);
    var a := RuleArgs(ts, idx, i);
    forall j | 0 <= j < |a| ensures a[j] != "rule" {
      var p := idx[i] + 1 + j;
      assert a[j] == ts[p];
    }
  }

  /** `"rule"`, then rule `i`'s arguments, then the same for every later rule. */
  function Rebuilt(ts: seq<string>, idx: seq<nat>, i: nat): seq<string>
    requires Ordered(ts, idx) && i <= |idx|
    decreases |idx| - i
  {
    if i == |idx| then [] else ["rule"] + RuleArgs(ts, idx, i) + Rebuilt(ts, idx, i + 1)
  }

  lemma {:induction false} RebuiltSuffix(ts: seq<string>, idx: seq<nat>, i: nat)
    requires Ordered(ts, idx) && i < |idx|
    requires forall k :: 0 <= k < |idx| ==> ts[idx[k]] == "rule"
    ensures Rebuilt(ts, idx, i) == ts[idx[i]..]
    decreases |idx| - i
  {
    var e := RuleEnd(ts, idx, i);
    assert Rebuilt(ts, idx, i) == ["rule"] + ts[idx[i] + 1..e] + Rebuilt(ts, idx, i + 1);
    if i + 1 < |idx| {
      RebuiltSuffix(ts, idx, i + 1);
      assert ts[idx[i]..] == [ts[idx[i]]] + ts[idx[i] + 1..e] + ts[e..];
    } else {
      assert ts[idx[i]..] == [ts[idx[i]]] + ts[idx[i] + 1..e];
    }
  }

  /** The rules partition the remainder: put back together with their
      `rule` markers they give the whole token list. */
  lemma RulesPartition(ts: seq<string>)
    requires ts != [] && ts[0] == "rule"
    ensures Rebuilt(ts, RuleIndices(ts), 0) == ts
  {
    var idx := RuleIndices(ts);
    assert 0 in idx;
    RebuiltSuffix(ts, idx, 0);
  }

  /** `ManualCommand._CreateLibrary` */
  function ManualLibraryOf(o: ManualOptions, parse: seq<string> -> Option<RuleOptions>): Option<Library> {
    match ManualRulesSpec(o.rules, parse)
    case None => None
    case Some(rules) => Some(Library(PathParts(o.src), PathParts(o.install), Copy(rules)))
  }

  /** `COMMAND_MAP[cmd_name]().CreateLibrary(cmdline[1:])` */
  function CreateLibrary(config: Config, parsers: Parsers, g: Group): Option<Library> {
    var args := if g.args == [] then [] else g.args[1..];
    if g.key.cmd == CMakeName then
      match parsers.cmake(args)
      case None => None
      case Some(o) => CMakeLibrary(o, parsers.shlex)
    else if g.key.cmd == HeaderName then
      match parsers.header(args)
      case None => None
      case Some(o) => Some(HeaderLibraryOf(o, config))
    else if g.key.cmd == ManualName then
      match parsers.manual(args)
      case None => None
      case Some(o) => ManualLibraryOf(o, parsers.rule)
    else None
  }

  function CreateFor(config: Config, parsers: Parsers): Group -> Option<Library> {
    (g: Group) => CreateLibrary(config, parsers, g)
  }

  /** The loop of `main` over the command groups. */
  method CollectLibraries(config: Config, parsers: Parsers, groups: seq<Group>) returns (r: Option<seq<Library>>)
    ensures r == ParseAll(groups, CreateFor(config, parsers))
  {
    var libs: seq<Library> := [];
    var i := 0;
    while i < |groups|
      invariant 0 <= i <= |groups|
      invariant ParseAll(groups[..i], CreateFor(config, parsers)) == Some(libs)
    {
      ParseAllStep(groups, CreateFor(config, parsers), i);
      var lib := CreateLibrary(config, parsers, groups[i]);
      if lib.None? {
        ParseAllSpec(groups, CreateFor(config, parsers));
        ParseAllSpec(groups[..i + 1], CreateFor(config, parsers));
        assert groups[..i + 1][i] == groups[i];
        return None;
      }
      libs := libs + [lib.value];
      i := i + 1;
    }
    assert groups[..i] == groups;
    r := Some(libs);
  }

  /** The whole command line: the settings and the libraries, in command
      order, or `None` when the program exits with an error. */
  function CommandLine(parsers: Parsers, tokens: seq<string>): Option<(Config, seq<Library>)> {
    var (global, rest) := SplitGlobal(Grouped(CommandNames, tokens));
    match parsers.global(global)
    case None => None
    case Some(o) =>
      match parsers.shlex(o.cmakeArgs)
      case None => None
      case Some(globalArgs) =>
        var config := MakeConfig(o, globalArgs);
        match ParseAll(rest, CreateFor(config, parsers))
        case None => None
        case Some(libs) => Some((config, libs))
  }

  /** `main` of third_party/deps.py up to `run_tests`. */
  method ParseCommandLine(parsers: Parsers, tokens: seq<string>) returns (r: Option<(Config, seq<Library>)>)
    ensures r == CommandLine(parsers, tokens)
  {
    var groups := GroupArgs(CommandNames, tokens);
    var global: seq<string> := [];
    if groups != [] && groups[0].key.cmd == "global" {
      global := groups[0].args;
      groups := groups[1..];
    }
    var o := parsers.global(global);
    if o.None? {
      return None;
    }
    var globalArgs := parsers.shlex(o.value.cmakeArgs);
    if globalArgs.None? {
      return None;
    }
    var config := MakeConfig(o.value, globalArgs.value);
    var libs := CollectLibraries(config, parsers, groups);
    if libs.None? {
      return None;
    }
    r := Some((config, libs.value));
  }

  /** On success there is one library per sub-command, in command-line
      order, each made from its own group's tokens. */
  lemma CommandLineLibraries(parsers: Parsers, tokens: seq<string>)
    requires CommandLine(parsers, tokens).Some?
    ensures var rest := SplitGlobal(Grouped(CommandNames, tokens)).1;
      var (config, libs) := CommandLine(parsers, tokens).value;
      && |libs| == |rest|
      && (forall i :: 0 <= i < |rest| ==> rest[i].key.cmd in CommandNames && rest[i].args[0] == rest[i].key.cmd)
      && (forall i :: 0 <= i < |rest| ==> CreateLibrary(config, parsers, rest[i]) == Some(libs[i]))
  {
    assert "global" != CMakeName && "global" != HeaderName && "global" != ManualName;
    GlobalArgs(CommandNames, tokens);
    var rest := SplitGlobal(Grouped(CommandNames, tokens)).1;
    var config := CommandLine(parsers, tokens).value.0;
    ParseAllSpec(rest, CreateFor(config, parsers));
  }

  /** A header command with a one-component `--src` and no
      `--install-subdir` copies each glob to "." below the header folder. */
  lemma HeaderDefaultSubdir(o: HeaderOptions, config: Config)
    requires IsPart(o.src) && o.installSubdir == ""
    ensures HeaderLibraryOf(o, config).sourceBase == [o.src]
    ensures HeaderLibraryOf(o, config).installBase == config.headerSubdir
    ensures HeaderLibraryOf(o, config).kind == Copy(seq(|o.globs|, i requires 0 <= i < |o.globs| => Rule(o.globs[i], ".")))
  {
    PathPartsSingle(o.src);
    PathPartsEmpty(o.installSubdir);
  }
}
