/** Python's string operations used by the tool, as functions on `string`:
    `sep.join`, `str.split(sep)`, `str.strip()`, `str.rstrip("\n")`, and the
    way `pathlib` turns a relative path string into its parts. */
module Text {

  /** A path component as `pathlib` keeps it: never empty, never ".", no separator. */
  predicate IsPart(p: string) {
    p != "" && p != "." && '/' !in p
  }

  /** Index of the first `c` in `s`, or `|s|` when there is none. */
  function IndexOf(c: char, s: string): (i: nat)
    ensures i <= |s|
    ensures forall j :: 0 <= j < i ==> s[j] != c
    ensures i < |s| ==> s[i] == c
  {
    if s == [] then 0 else if s[0] == c then 0 else 1 + IndexOf(c, s[1..])
  }

  lemma {:induction false} IndexOfAppend(c: char, a: string, b: string)
    requires c !in a
    ensures IndexOf(c, a + b) == |a| + IndexOf(c, b)
  {
    if a != [] {
      assert (a + b)[0] == a[0];
      assert (a + b)[1..] == a[1..] + b;
      IndexOfAppend(c, a[1..], b);
    } else {
      assert a + b == b;
    }
  }

  /** `sep.join(parts)` */
  function Join(sep: char, parts: seq<string>): string
  {
    if |parts| == 0 then ""
    else if |parts| == 1 then parts[0]
    else parts[0] + [sep] + Join(sep, parts[1..])
  }

  /** `s.split(sep)`: always at least one piece, and no piece holds `sep`. */
  function SplitOn(sep: char, s: string): (r: seq<string>)
    ensures |r| >= 1
    ensures forall i :: 0 <= i < |r| ==> sep !in r[i]
    decreases |s|
  {
    var i := IndexOf(sep, s);
    if i == |s| then
      assert forall j :: 0 <= j < |s| ==> s[j] != sep;
      [s]
    else
      assert forall j :: 0 <= j < i ==> s[..i][j] != sep;
      [s[..i]] + SplitOn(sep, s[i + 1..])
  }

  /** Splitting at the first separator. */
  lemma SplitOnFirst(sep: char, a: string, rest: string)
    requires sep !in a
    ensures SplitOn(sep, a + [sep] + rest) == [a] + SplitOn(sep, rest)
  {
    var s := a + [sep] + rest;
    assert s == a + ([sep] + rest);
    IndexOfAppend(sep, a, [sep] + rest);
    assert s[..|a|] == a;
    assert s[|a| + 1..] == rest;
  }

  /** Splitting a join gives the parts back, provided none of them holds the separator. */
  lemma {:induction false} SplitJoin(sep: char, parts: seq<string>)
    requires |parts| >= 1
    requires forall i :: 0 <= i < |parts| ==> sep !in parts[i]
    ensures SplitOn(sep, Join(sep, parts)) == parts
  {
    if |parts| == 1 {
      IndexOfAppend(sep, parts[0], []);
      assert parts[0] + [] == parts[0];
    } else {
      SplitOnFirst(sep, parts[0], Join(sep, parts[1..]));
      SplitJoin(sep, parts[1..]);
      assert parts == [parts[0]] + parts[1..];
    }
  }

  /** `sep.join` is one-to-one on non-empty lists whose items do not hold `sep`. */
  lemma JoinInjective(sep: char, a: seq<string>, b: seq<string>)
    requires |a| >= 1 && |b| >= 1
    requires forall i :: 0 <= i < |a| ==> sep !in a[i]
    requires forall i :: 0 <= i < |b| ==> sep !in b[i]
    requires Join(sep, a) == Join(sep, b)
    ensures a == b
  {
    SplitJoin(sep, a);
    SplitJoin(sep, b);
  }

  /** Drops the empty and "." pieces, as `pathlib` does. */
  function Clean(ps: seq<string>): (r: seq<string>)
    ensures forall i :: 0 <= i < |r| ==> r[i] != "" && r[i] != "." && r[i] in ps
  {
    if ps == [] then []
    else if ps[0] == "" || ps[0] == "." then Clean(ps[1..])
    else [ps[0]] + Clean(ps[1..])
  }

  lemma {:induction false} CleanKeepsParts(ps: seq<string>)
    requires forall i :: 0 <= i < |ps| ==> IsPart(ps[i])
    ensures Clean(ps) == ps
  {
    if ps != [] {
      CleanKeepsParts(ps[1..]);
      assert ps == [ps[0]] + ps[1..];
    }
  }

  /** `Path(s).parts` for a relative POSIX path: repeated and trailing
      slashes and "." components vanish, ".." is kept. */
  function PathParts(s: string): (r: seq<string>)
    ensures forall i :: 0 <= i < |r| ==> IsPart(r[i])
  {
    var pieces := SplitOn('/', s);
    var r := Clean(pieces);
    assert forall i :: 0 <= i < |r| ==> r[i] in pieces;
    r
  }

  /** `str(Path(*parts))`: "." for the empty path. */
  function PathString(parts: seq<string>): string
  {
    if parts == [] then "." else Join('/', parts)
  }

  /** Printing a path and parsing it again gives the same parts. */
  lemma PathRoundTrip(parts: seq<string>)
    requires forall i :: 0 <= i < |parts| ==> IsPart(parts[i])
    ensures PathParts(PathString(parts)) == parts
  {
    if parts == [] {
      IndexOfAppend('/', ".", []);
      assert "." + [] == ".";
      assert SplitOn('/', ".") == ["."];
    } else {
      SplitJoin('/', parts);
      CleanKeepsParts(parts);
    }
  }

  /** `Path("")` has no parts. */
  lemma PathPartsEmpty(s: string)
    requires s == ""
    ensures PathParts(s) == []
  {
    assert SplitOn('/', s) == [""];
    assert Clean([""]) == [];
  }

  /** A single component parses to itself. */
  lemma PathPartsSingle(s: string)
    requires IsPart(s)
    ensures PathParts(s) == [s]
  {
    IndexOfAppend('/', s, []);
    assert s + [] == s;
    assert SplitOn('/', s) == [s];
    assert Clean([s]) == [s] + Clean([]);
  }

  /** Whitespace as Python's `str.strip()` with no argument removes it. */
  predicate IsSpace(c: char) {
    ('\t' <= c <= '\r') || ('\U{1c}' <= c <= ' ') || c == '\U{85}' || c == '\U{a0}'
    || c == '\U{1680}' || ('\U{2000}' <= c <= '\U{200a}') || c == '\U{2028}' || c == '\U{2029}'
    || c == '\U{202f}' || c == '\U{205f}' || c == '\U{3000}'
  }

  function TrimEnd(s: string, drop: char -> bool): (r: string)
    ensures r <= s
    ensures r != [] ==> !drop(r[|r| - 1])
    ensures forall j :: |r| <= j < |s| ==> drop(s[j])
  {
    if s == [] || !drop(s[|s| - 1]) then s else TrimEnd(s[..|s| - 1], drop)
  }

  function TrimStart(s: string, drop: char -> bool): (r: string)
    ensures |r| <= |s| && r == s[|s| - |r|..]
    ensures r != [] ==> !drop(r[0])
    ensures forall j :: 0 <= j < |s| - |r| ==> drop(s[j])
  {
    if s == [] || !drop(s[0]) then s else TrimStart(s[1..], drop)
  }

  /** `s.strip()` */
  function Strip(s: string): string {
    TrimStart(TrimEnd(s, IsSpace), IsSpace)
  }

  predicate IsNewline(c: char) {
    c == '\n'
  }

  /** `s.rstrip("\n")` */
  function TrimNewlines(s: string): string {
    TrimEnd(s, IsNewline)
  }

  lemma TrimEndOfClean(s: string, drop: char -> bool)
    requires s == [] || !drop(s[|s| - 1])
    ensures TrimEnd(s, drop) == s
  {
  }

  /** Stripping twice is stripping once: a value written after `strip()`
      reads back unchanged by another `strip()`. */
  lemma StripIdempotent(s: string)
    ensures Strip(Strip(s)) == Strip(s)
  {
    var e := TrimEnd(s, IsSpace);
    var t := TrimStart(e, IsSpace);
    assert t != [] ==> t[|t| - 1] == e[|e| - 1];
    TrimEndOfClean(t, IsSpace);
    var t2 := TrimStart(t, IsSpace);
    assert t2 == t;
  }
}
