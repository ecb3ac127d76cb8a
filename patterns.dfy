/** Splitting a glob pattern into its constant directory prefix and the
    wildcard rest (`ManualLibrary._SplitPattern` in third_party/deps.py and
    `split_pattern` in libs/install_dependencies.py, which are the same code). */
module Patterns {
  import opened Text

  /** A component that `glob` treats as a pattern: it holds `*`, `?` or `[`. */
  predicate HasWildcard(part: string) {
    '*' in part || '?' in part || '[' in part
  }

  /** The loop over `enumerate(parts)`: index of the first wildcard component,
      or `|parts|` when every component is literal. */
  function FirstWildcard(parts: seq<string>): (i: nat)
    ensures i <= |parts|
    ensures forall j :: 0 <= j < i ==> !HasWildcard(parts[j])
    ensures i < |parts| ==> HasWildcard(parts[i])
  {
    if parts == [] then 0
    else if HasWildcard(parts[0]) then 0
    else 1 + FirstWildcard(parts[1..])
  }

  /** `(fixed_prefix, sub_pattern)`: the components before the first wildcard
      component, and the rest joined by "/" ("" when there is no wildcard). */
  function SplitPattern(pattern: string): (Path, string) {
    var parts := PathParts(pattern);
    var i := FirstWildcard(parts);
    if i < |parts| then (parts[..i], Join('/', parts[i..])) else (parts, "")
  }

  type Path = seq<string>

  /** The fixed prefix is a wildcard-free leading part of the pattern's
      components; the remainder, split on "/", gives back exactly the
      components that follow, and it starts with a wildcard component. */
  lemma {:induction false} SplitPatternRoundTrip(pattern: string)
    ensures SplitPattern(pattern).0 <= PathParts(pattern)
    ensures forall j :: 0 <= j < |SplitPattern(pattern).0| ==> !HasWildcard(SplitPattern(pattern).0[j])
    ensures SplitPattern(pattern).1 != "" ==>
      && SplitPattern(pattern).0 + SplitOn('/', SplitPattern(pattern).1) == PathParts(pattern)
      && HasWildcard(SplitOn('/', SplitPattern(pattern).1)[0])
  {
    var parts := PathParts(pattern);
    var i := FirstWildcard(parts);
    if i < |parts| {
      var rest := parts[i..];
      forall j | 0 <= j < |rest| ensures '/' !in rest[j] {
        assert rest[j] == parts[i + j];
        assert IsPart(parts[i + j]);
      }
      SplitJoin('/', rest);
      assert parts == parts[..i] + rest;
    }
  }

  /** The remainder is empty exactly when no component is a pattern; the
      prefix is then the whole path. */
  lemma {:induction false} SplitPatternLiteral(pattern: string)
    ensures var (fixed, sub) := SplitPattern(pattern);
      (sub == "") <==> (forall j :: 0 <= j < |PathParts(pattern)| ==> !HasWildcard(PathParts(pattern)[j]))
    ensures var (fixed, sub) := SplitPattern(pattern);
      sub == "" ==> fixed == PathParts(pattern)
  {
    var parts := PathParts(pattern);
    var i := FirstWildcard(parts);
    if i < |parts| {
      var rest := parts[i..];
      assert rest[0] == parts[i] && IsPart(rest[0]);
      JoinStartsWith(rest);
    }
  }

  lemma {:induction false} JoinStartsWith(parts: seq<string>)
    requires |parts| >= 1 && parts[0] != ""
    ensures Join('/', parts) != ""
  {
    if |parts| > 1 {
      assert Join('/', parts) == parts[0] + ['/'] + Join('/', parts[1..]);
    }
  }

  // The documented example: the recursive `.dll` pattern below
  // `redistributable_bin` splits into that directory and the remainder.
  lemma LiteralDirectory()
    ensures !HasWildcard("redistributable_bin")
  {
    var s := "redistributable_bin";
    assert forall k :: 0 <= k < |s| ==> s[k] != '*' && s[k] != '?' && s[k] != '[';
  }

  lemma ExampleParts(p: string)
    requires p == "redistributable_bin/**/*.dll"
    ensures PathParts(p) == ["redistributable_bin", "**", "*.dll"]
  {
    var parts := ["redistributable_bin", "**", "*.dll"];
    assert Join('/', parts[1..]) == "**/*.dll";
    assert Join('/', parts) == p;
    SplitJoin('/', parts);
    CleanKeepsParts(parts);
  }

  lemma DocExample(p: string)
    requires p == "redistributable_bin/**/*.dll"
    ensures SplitPattern(p) == (["redistributable_bin"], "**/*.dll")
  {
    var parts := ["redistributable_bin", "**", "*.dll"];
    ExampleParts(p);
    LiteralDirectory();
    assert HasWildcard(parts[1]);
    assert FirstWildcard(parts) == 1;
    assert Join('/', parts[1..]) == "**/*.dll";
  }
}
