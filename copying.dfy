/** `ManualLibrary.BuildAndInstall`: the copy rules of a manual or header
    library, applied in order. The code is the same in both versions of the
    tool. */
module Copying {
  import opened Wrappers
  import opened Text
  import opened Files
  import opened Patterns
  import opened Libraries

  /** One step of a rule: copy `src` to `dst` (`copytree` when `src` is then a
      directory, `copy2` otherwise), or skip a match whose path is not below
      the glob root (`relative_to` raised `ValueError`). */
  datatype Action = Skip | CopyTo(src: Path, dst: Path)

  /** `install_dir / dst_subdir` */
  function DestDir(installDir: Path, rule: Rule): Path {
    installDir + PathParts(rule.dst)
  }

  /** `glob_root = source_dir / fixed_prefix` */
  function GlobRoot(sourceDir: Path, rule: Rule): Path {
    sourceDir + SplitPattern(rule.pattern).0
  }

  function MatchAction(root: Path, dest: Path, m: Path): Action {
    if root <= m then CopyTo(m, dest + m[|root|..]) else Skip
  }

  function MatchActions(root: Path, dest: Path, ms: seq<Path>): (acts: seq<Action>)
    ensures |acts| == |ms|
    ensures forall i :: 0 <= i < |ms| ==> acts[i] == MatchAction(root, dest, ms[i])
  {
    seq(|ms|, i requires 0 <= i < |ms| => MatchAction(root, dest, ms[i]))
  }

  /** The copies one rule makes, worked out when the rule starts (that is
      when the root is checked and `glob` runs). */
  function Expand(fs: Tree, host: Host, sourceDir: Path, installDir: Path, rule: Rule): (acts: seq<Action>)
    // a missing root does nothing
    ensures !Exists(fs, GlobRoot(sourceDir, rule)) ==> acts == []
    // a file root is copied, under its own name, into the destination folder
    ensures IsFile(fs, GlobRoot(sourceDir, rule)) ==>
      acts == [CopyTo(GlobRoot(sourceDir, rule), DestDir(installDir, rule) + Name(GlobRoot(sourceDir, rule)))]
    // otherwise each match, in glob's order, goes to the destination folder
    // followed by its path relative to the root
    ensures IsDir(fs, GlobRoot(sourceDir, rule)) ==>
      var root := GlobRoot(sourceDir, rule);
      var ms := host.glob(fs, root, SplitPattern(rule.pattern).1);
      |acts| == |ms| &&
      forall i :: 0 <= i < |ms| ==>
        if root <= ms[i] then acts[i] == CopyTo(ms[i], DestDir(installDir, rule) + ms[i][|root|..])
        else acts[i] == Skip
    // nothing is written outside the destination folder
    ensures forall i :: 0 <= i < |acts| && acts[i].CopyTo? ==> DestDir(installDir, rule) <= acts[i].dst
  {
    var (fixed, sub) := SplitPattern(rule.pattern);
    var root := sourceDir + fixed;
    var dest := DestDir(installDir, rule);
    if !Exists(fs, root) then []
    else if IsFile(fs, root) then [CopyTo(root, dest + Name(root))]
    else
      MatchActions(root, dest, host.glob(fs, root, sub))
  }

  /** One copy, on the filesystem as it is at that moment. */
  function Perform(fs: Tree, a: Action): Run {
    match a
    case Skip => Run(fs, None)
    case CopyTo(src, dst) =>
      if IsDir(fs, src) then Run(CopyTree(fs, src, dst), None)
      else if IsFile(fs, src) then Run(CopyFile(fs, src, dst), None)
      else Run(fs, Some(FileNotFoundError))
  }

  /** The actions in order; the first exception stops the rest. */
  function Exec(fs: Tree, acts: seq<Action>): (r: Run)
    ensures r.error.Some? ==> r.error == Some(FileNotFoundError)
  {
    if acts == [] then Run(fs, None)
    else
      var r := Exec(fs, acts[..|acts| - 1]);
      if r.error.Some? then r else Perform(r.fs, acts[|acts| - 1])
  }

  /** The rules in order, each on the filesystem the earlier ones left. */
  function ApplyRules(fs: Tree, host: Host, sourceDir: Path, installDir: Path, rules: seq<Rule>): (r: Run)
    ensures r.error.Some? ==> r.error == Some(FileNotFoundError)
  {
    if rules == [] then Run(fs, None)
    else
      var r := ApplyRules(fs, host, sourceDir, installDir, rules[..|rules| - 1]);
      if r.error.Some? then r
      else Exec(r.fs, Expand(r.fs, host, sourceDir, installDir, rules[|rules| - 1]))
  }

  /** Whether action `a` may write the path `t`. */
  predicate MayWrite(a: Action, t: Path) {
    a.CopyTo? && a.dst <= t
  }

  /** Paths no action may write keep their contents (or their absence). */
  lemma {:induction false} ExecFrame(fs: Tree, acts: seq<Action>, t: Path)
    requires forall i :: 0 <= i < |acts| ==> !MayWrite(acts[i], t)
    ensures Read(Exec(fs, acts).fs, t) == Read(fs, t)
  {
    if acts != [] {
      ExecFrame(fs, acts[..|acts| - 1], t);
    }
  }

  /** Overwrite wins last: a file copied to `t` keeps the copied contents when
      no later action writes `t`. */
  lemma {:induction false} LastWriteWins(fs: Tree, pre: seq<Action>, src: Path, t: Path, post: seq<Action>)
    requires Exec(fs, pre).error == None
    requires IsFile(Exec(fs, pre).fs, src) && !IsDir(Exec(fs, pre).fs, src)
    requires forall i :: 0 <= i < |post| ==> !MayWrite(post[i], t)
    ensures var r := Exec(fs, pre + [CopyTo(src, t)] + post);
      r.error == None ==> Read(r.fs, t) == Some(Exec(fs, pre).fs[src])
  {
    var acts := pre + [CopyTo(src, t)] + post;
    if post == [] {
      assert acts[..|acts| - 1] == pre;
    } else {
      assert acts[..|acts| - 1] == pre + [CopyTo(src, t)] + post[..|post| - 1];
      LastWriteWins(fs, pre, src, t, post[..|post| - 1]);
      var r0 := Exec(fs, acts[..|acts| - 1]);
      if r0.error == None {
        assert !MayWrite(post[|post| - 1], t);
      }
    }
  }

  /** A missing glob root changes nothing. */
  lemma MissingRootUnchanged(fs: Tree, host: Host, sourceDir: Path, installDir: Path, rule: Rule)
    requires !Exists(fs, GlobRoot(sourceDir, rule))
    ensures ApplyRules(fs, host, sourceDir, installDir, [rule]) == Run(fs, None)
  {
    assert [rule][..0] == [];
  }

  /** A glob root that is a file is copied to `install_dir/dst/<root name>`. */
  lemma FileRootCopied(fs: Tree, host: Host, sourceDir: Path, installDir: Path, rule: Rule)
    requires IsFile(fs, GlobRoot(sourceDir, rule))
    ensures var root := GlobRoot(sourceDir, rule);
      ApplyRules(fs, host, sourceDir, installDir, [rule])
        == Run(fs[DestDir(installDir, rule) + Name(root) := fs[root]], None)
  {
    assert [rule][..0] == [];
    var root := GlobRoot(sourceDir, rule);
    var acts := Expand(fs, host, sourceDir, installDir, rule);
    assert acts[..0] == [];
    assert Exec(fs, acts[..0]) == Run(fs, None);
    assert !IsDir(fs, root);
    assert Perform(fs, acts[0]) == Run(fs[DestDir(installDir, rule) + Name(root) := fs[root]], None);
  }

  lemma {:induction false} ExecUnderDest(fs: Tree, acts: seq<Action>, dest: Path, t: Path)
    requires forall i :: 0 <= i < |acts| && acts[i].CopyTo? ==> dest <= acts[i].dst
    requires !(dest <= t)
    ensures Read(Exec(fs, acts).fs, t) == Read(fs, t)
  {
    forall i | 0 <= i < |acts| ensures !MayWrite(acts[i], t) {
      if acts[i].CopyTo? {
        assert dest <= acts[i].dst;
      }
    }
    ExecFrame(fs, acts, t);
  }

  /** A copy library writes nothing outside its install folder. */
  lemma {:induction false} RulesStayInInstallDir(fs: Tree, host: Host, sourceDir: Path, installDir: Path, rules: seq<Rule>, t: Path)
    requires !(installDir <= t)
    ensures Read(ApplyRules(fs, host, sourceDir, installDir, rules).fs, t) == Read(fs, t)
  {
    if rules != [] {
      var init := rules[..|rules| - 1];
      RulesStayInInstallDir(fs, host, sourceDir, installDir, init, t);
      var r := ApplyRules(fs, host, sourceDir, installDir, init);
      if r.error == None {
        var rule := rules[|rules| - 1];
        var acts := Expand(r.fs, host, sourceDir, installDir, rule);
        var dest := DestDir(installDir, rule);
        forall i | 0 <= i < |acts| && acts[i].CopyTo? ensures installDir <= acts[i].dst {
          assert dest <= acts[i].dst;
        }
        ExecUnderDest(r.fs, acts, installDir, t);
      }
    }
  }

  /** One rule leaves alone every path outside its destination folder. */
  lemma RuleElsewhere(fs: Tree, host: Host, sourceDir: Path, installDir: Path, rule: Rule, t: Path)
    requires !(DestDir(installDir, rule) <= t)
    ensures Read(Exec(fs, Expand(fs, host, sourceDir, installDir, rule)).fs, t) == Read(fs, t)
  {
    ExecUnderDest(fs, Expand(fs, host, sourceDir, installDir, rule), DestDir(installDir, rule), t);
  }

  /** A path that no rule after the first `k` holds in its destination
      folder keeps what those `k` rules left there; with LastWriteWins this
      fixes the order of copies across rules. */
  lemma {:induction false} LaterRulesElsewhere(fs: Tree, host: Host, sourceDir: Path, installDir: Path,
                                               rules: seq<Rule>, k: nat, t: Path)
    requires k <= |rules|
    requires forall i :: k <= i < |rules| ==> !(DestDir(installDir, rules[i]) <= t)
    ensures Read(ApplyRules(fs, host, sourceDir, installDir, rules).fs, t)
      == Read(ApplyRules(fs, host, sourceDir, installDir, rules[..k]).fs, t)
  {
    if k < |rules| {
      var init := rules[..|rules| - 1];
      assert init[..k] == rules[..k];
      LaterRulesElsewhere(fs, host, sourceDir, installDir, init, k, t);
      var r := ApplyRules(fs, host, sourceDir, installDir, init);
      if r.error == None {
        RuleElsewhere(r.fs, host, sourceDir, installDir, rules[|rules| - 1], t);
      }
    } else {
      assert rules[..k] == rules;
    }
  }

  /** Once an action raises, the remaining actions are not run. */
  lemma {:induction false} ExecStops(fs: Tree, acts: seq<Action>, k: nat)
    requires k <= |acts| && Exec(fs, acts[..k]).error.Some?
    ensures Exec(fs, acts) == Exec(fs, acts[..k])
  {
    if k < |acts| {
      assert acts[..|acts| - 1][..k] == acts[..k];
      ExecStops(fs, acts[..|acts| - 1], k);
    } else {
      assert acts[..k] == acts;
    }
  }

  /** Once a rule raises, the remaining rules are not run. */
  lemma {:induction false} RulesStop(fs: Tree, host: Host, sourceDir: Path, installDir: Path, rules: seq<Rule>, k: nat)
    requires k <= |rules| && ApplyRules(fs, host, sourceDir, installDir, rules[..k]).error.Some?
    ensures ApplyRules(fs, host, sourceDir, installDir, rules) == ApplyRules(fs, host, sourceDir, installDir, rules[..k])
  {
    if k < |rules| {
      assert rules[..|rules| - 1][..k] == rules[..k];
      RulesStop(fs, host, sourceDir, installDir, rules[..|rules| - 1], k);
    } else {
      assert rules[..k] == rules;
    }
  }

  lemma ExecStep(fs: Tree, acts: seq<Action>, j: nat)
    requires j < |acts|
    ensures Exec(fs, acts[..j + 1]) ==
      var r := Exec(fs, acts[..j]); if r.error.Some? then r else Perform(r.fs, acts[j])
  {
    assert acts[..j + 1][..j] == acts[..j];
  }

  lemma RulesStep(fs: Tree, host: Host, sourceDir: Path, installDir: Path, rules: seq<Rule>, i: nat)
    requires i < |rules|
    ensures ApplyRules(fs, host, sourceDir, installDir, rules[..i + 1]) ==
      var r := ApplyRules(fs, host, sourceDir, installDir, rules[..i]);
      if r.error.Some? then r else Exec(r.fs, Expand(r.fs, host, sourceDir, installDir, rules[i]))
  {
    assert rules[..i + 1][..i] == rules[..i];
  }

  /** The inner loop of `ManualLibrary.BuildAndInstall`: copy each match below
      the root to the same relative place below the destination folder; a
      match that is neither a directory nor a file raises. */
  method CopyMatches(fs: Tree, root: Path, dest: Path, matches: seq<Path>) returns (r: Run)
    ensures r == Exec(fs, MatchActions(root, dest, matches))
  {
    ghost var acts := MatchActions(root, dest, matches);
    var cur := fs;
    var j := 0;
    while j < |matches|
      invariant 0 <= j <= |matches|
      invariant Exec(fs, acts[..j]) == Run(cur, None)
    {
      var m := matches[j];
      ExecStep(fs, acts, j);
      if root <= m {
        var target := dest + m[|root|..];
        if IsDir(cur, m) {
          cur := CopyTree(cur, m, target);
        } else if IsFile(cur, m) {
          cur := CopyFile(cur, m, target);
        } else {
          r := Run(cur, Some(FileNotFoundError));
          ExecStops(fs, acts, j + 1);
          return;
        }
      }
      j := j + 1;
    }
    assert acts[..j] == acts;
    r := Run(cur, None);
  }

  /** The loop of `ManualLibrary.BuildAndInstall`: for each rule, split the
      pattern, skip a missing root, copy a file root, otherwise copy every
      match; an exception ends the loop. */
  method BuildAndInstall(fs: Tree, host: Host, sourceDir: Path, installDir: Path, rules: seq<Rule>) returns (r: Run)
    ensures r == ApplyRules(fs, host, sourceDir, installDir, rules)
  {
    var cur := fs;
    var i := 0;
    while i < |rules|
      invariant 0 <= i <= |rules|
      invariant ApplyRules(fs, host, sourceDir, installDir, rules[..i]) == Run(cur, None)
    {
      var rule := rules[i];
      RulesStep(fs, host, sourceDir, installDir, rules, i);
      var (fixed, sub) := SplitPattern(rule.pattern);
      var root := sourceDir + fixed;
      var dest := installDir + PathParts(rule.dst);
      if !Exists(cur, root) {
        // pattern base path not found: the rule is skipped
      } else if IsFile(cur, root) {
        ghost var acts := Expand(cur, host, sourceDir, installDir, rule);
        assert acts[..0] == [];
        cur := CopyFile(cur, root, dest + Name(root));
      } else {
        var matches := host.glob(cur, root, sub);
        var rr := CopyMatches(cur, root, dest, matches);
        if rr.error.Some? {
          r := rr;
          RulesStop(fs, host, sourceDir, installDir, rules, i + 1);
          return;
        }
        cur := rr.fs;
      }
      i := i + 1;
    }
    assert rules[..i] == rules;
    r := Run(cur, None);
  }
}
