/** `install_libraries` and the parse loops, as functions over a list: each
    element is handled on the state the earlier ones left, and the first
    failure ends the loop. */
module Orchestration {
  import opened Wrappers
  import opened Files
  import opened Libraries

  /** `skip_if_missing`, negated: the source folder exists. */
  function Present(config: Config): (Tree, Library) -> bool {
    (fs: Tree, lib: Library) => Exists(fs, SourceDir(config, lib))
  }

  /** `install_libraries(libraries)`: a library whose source folder is
      missing is skipped; any exception out of `InstallLibrary` ends the run
      (`sys.exit(1)` for `CalledProcessError`, an uncaught traceback for the
      others) and the remaining libraries are not attempted. */
  function InstallAll<L>(fs: Tree, libs: seq<L>, present: (Tree, L) -> bool, install: (Tree, L) -> Run): (r: Run)
    ensures r.error.Some? ==> exists f: Tree, j :: 0 <= j < |libs| && install(f, libs[j]) == r
  {
    if libs == [] then Run(fs, None)
    else
      var r := InstallAll(fs, libs[..|libs| - 1], present, install);
      var lib := libs[|libs| - 1];
      if r.error.Some? then r
      else if !present(r.fs, lib) then r
      else install(r.fs, lib)
  }

  lemma InstallAllStep<L>(fs: Tree, libs: seq<L>, present: (Tree, L) -> bool, install: (Tree, L) -> Run, i: nat)
    requires i < |libs|
    ensures InstallAll(fs, libs[..i + 1], present, install) ==
      var r := InstallAll(fs, libs[..i], present, install);
      if r.error.Some? then r else if !present(r.fs, libs[i]) then r else install(r.fs, libs[i])
  {
    assert libs[..i + 1][..i] == libs[..i];
  }

  /** After the first failure nothing else runs. */
  lemma {:induction false} InstallAllStops<L>(fs: Tree, libs: seq<L>, present: (Tree, L) -> bool, install: (Tree, L) -> Run, k: nat)
    requires k <= |libs| && InstallAll(fs, libs[..k], present, install).error.Some?
    ensures InstallAll(fs, libs, present, install) == InstallAll(fs, libs[..k], present, install)
  {
    if k < |libs| {
      assert libs[..|libs| - 1][..k] == libs[..k];
      InstallAllStops(fs, libs[..|libs| - 1], present, install, k);
    } else {
      assert libs[..k] == libs;
    }
  }

  /** Installing `a + b` is installing `a`, then, unless that failed,
      installing `b` on the result. */
  lemma {:induction false} InstallAllAppend<L>(fs: Tree, a: seq<L>, b: seq<L>, present: (Tree, L) -> bool, install: (Tree, L) -> Run)
    ensures InstallAll(fs, a + b, present, install) ==
      var r := InstallAll(fs, a, present, install);
      if r.error.Some? then r else InstallAll(r.fs, b, present, install)
  {
    if b == [] {
      assert a + b == a;
    } else {
      assert (a + b)[..|a + b| - 1] == a + b[..|b| - 1];
      InstallAllAppend(fs, a, b[..|b| - 1], present, install);
    }
  }

  /** A library whose source folder is missing changes nothing. */
  lemma MissingSkipped<L>(fs: Tree, lib: L, present: (Tree, L) -> bool, install: (Tree, L) -> Run)
    requires !present(fs, lib)
    ensures InstallAll(fs, [lib], present, install) == Run(fs, None)
  {
    assert [lib][..0] == [];
  }

  /** The parse loops: every group turned into a library in order, or `None`
      (`sys.exit(1)`) at the first group that does not parse. */
  function ParseAll<G>(groups: seq<G>, parse: G -> Option<Library>): Option<seq<Library>> {
    if groups == [] then Some([])
    else
      match ParseAll(groups[..|groups| - 1], parse)
      case None => None
      case Some(libs) =>
        match parse(groups[|groups| - 1])
        case None => None
        case Some(lib) => Some(libs + [lib])
  }

  lemma ParseAllStep<G>(groups: seq<G>, parse: G -> Option<Library>, i: nat)
    requires i < |groups|
    ensures ParseAll(groups[..i + 1], parse) ==
      match ParseAll(groups[..i], parse)
      case None => None
      case Some(libs) =>
        match parse(groups[i])
        case None => None
        case Some(lib) => Some(libs + [lib])
  {
    assert groups[..i + 1][..i] == groups[..i];
  }

  /** Parsing succeeds exactly when every group parses; the libraries are
      then one per group, in the groups' order. */
  lemma {:induction false} ParseAllSpec<G>(groups: seq<G>, parse: G -> Option<Library>)
    ensures ParseAll(groups, parse).Some? <==> forall i :: 0 <= i < |groups| ==> parse(groups[i]).Some?
    ensures ParseAll(groups, parse).Some? ==>
      |ParseAll(groups, parse).value| == |groups| &&
      forall i :: 0 <= i < |groups| ==> ParseAll(groups, parse).value[i] == parse(groups[i]).value
  {
    if groups != [] {
      var init := groups[..|groups| - 1];
      ParseAllSpec(init, parse);
      assert forall i :: 0 <= i < |init| ==> init[i] == groups[i];
    }
  }
}
