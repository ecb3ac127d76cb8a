/** The line-addressed hash file of third_party/deps.py
    (`InstallingLibrary.WriteLineAt` and `ReadLineAt`): the file is read with
    `readlines`, padded with empty lines, one line replaced, and written back. */
module LineFile {
  import opened Wrappers
  import opened Text
  import opened Files

  /** A line as `readlines` yields it: not empty, and a newline at most as its
      last character. */
  predicate IsLine(l: string) {
    l != [] && '\n' !in l[..|l| - 1]
  }

  /** The line ends with its newline. */
  predicate Ended(l: string) {
    l != [] && l[|l| - 1] == '\n'
  }

  /** `"".join(lines)`, which is what `writelines` puts in the file. */
  function Concat(ls: seq<string>): string {
    if ls == [] then "" else ls[0] + Concat(ls[1..])
  }

  lemma {:induction false} ConcatAppend(a: seq<string>, b: seq<string>)
    ensures Concat(a + b) == Concat(a) + Concat(b)
  {
    if a != [] {
      assert (a + b)[0] == a[0];
      assert (a + b)[1..] == a[1..] + b;
      ConcatAppend(a[1..], b);
    } else {
      assert a + b == b;
    }
  }

  /** `f.readlines()`: the text cut after each newline; only the last line
      may lack one. */
  function ReadLines(s: string): (ls: seq<string>)
    ensures Concat(ls) == s
    ensures forall i :: 0 <= i < |ls| ==> IsLine(ls[i])
    ensures forall i :: 0 <= i < |ls| - 1 ==> Ended(ls[i])
    decreases |s|
  {
    if s == [] then []
    else
      var i := IndexOf('\n', s);
      if i == |s| then
        assert s[..|s| - 1] == s[..i - 1];
        [s]
      else
        var rest := ReadLines(s[i + 1..]);
        assert s[..i + 1][..i] == s[..i];
        assert s == s[..i + 1] + s[i + 1..];
        assert ([s[..i + 1]] + rest)[1..] == rest;
        [s[..i + 1]] + rest
  }

  /** Reading back what `writelines` wrote gives the same lines, when they
      are lines and all but the last end with a newline. */
  lemma {:induction false} ReadLinesConcat(ls: seq<string>)
    requires forall i :: 0 <= i < |ls| ==> IsLine(ls[i])
    requires forall i :: 0 <= i < |ls| - 1 ==> Ended(ls[i])
    ensures ReadLines(Concat(ls)) == ls
  {
    if ls != [] {
      var l := ls[0];
      var rest := Concat(ls[1..]);
      var s := l + rest;
      if Ended(l) {
        var body := l[..|l| - 1];
        assert l == body + ['\n'];
        assert s == body + (['\n'] + rest);
        IndexOfAppend('\n', body, ['\n'] + rest);
        assert (['\n'] + rest)[0] == '\n';
        assert IndexOf('\n', s) == |l| - 1;
        assert s[..|l|] == l;
        assert s[|l|..] == rest;
        ReadLinesConcat(ls[1..]);
        assert ReadLines(s) == [l] + ReadLines(rest);
      } else {
        assert |ls| == 1;
        assert rest == "";
        assert '\n' !in l;
        IndexOfAppend('\n', l, []);
        assert s == l + [];
        assert IndexOf('\n', s) == |s|;
        assert s != [] && s == l;
        assert ReadLines(s) == [l];
      }
      assert ls == [ls[0]] + ls[1..];
    }
  }

  /** The lines of the file, or none when there is no file. */
  function LinesOf(content: Option<string>): seq<string> {
    if content.Some? then ReadLines(content.value) else []
  }

  /** A line without its newline. */
  function Body(l: string): string {
    if Ended(l) then l[..|l| - 1] else l
  }

  lemma TrimLine(l: string)
    requires IsLine(l)
    ensures TrimNewlines(l) == Body(l) && '\n' !in Body(l)
  {
    if Ended(l) {
      var b := l[..|l| - 1];
      assert TrimEnd(l, IsNewline) == TrimEnd(b, IsNewline);
      TrimEndOfClean(b, IsNewline);
    } else {
      TrimEndOfClean(l, IsNewline);
    }
  }

  /** `ReadLineAt(path, n)`: line `n` (counted from 1) without its newline,
      or `None` when the file is missing or has no line `n`. */
  function ReadLineAt(content: Option<string>, n: int): (r: Option<string>)
    ensures r.Some? <==> 1 <= n <= |LinesOf(content)|
    ensures r.Some? ==> '\n' !in r.value && r.value == Body(LinesOf(content)[n - 1])
  {
    var ls := LinesOf(content);
    if 1 <= n <= |ls| then
      TrimLine(ls[n - 1]);
      Some(TrimNewlines(ls[n - 1]))
    else None
  }

  /** The lines after the padding loop and the assignment to `lines[n - 1]`. */
  function Padded(lines: seq<string>, n: nat, text: string): (out: seq<string>)
    requires n >= 1
    ensures |out| == if |lines| < n then n else |lines|
    ensures out[n - 1] == TrimNewlines(text) + "\n"
    ensures forall i :: 0 <= i < |lines| && i != n - 1 ==> out[i] == lines[i]
    ensures forall i :: |lines| <= i < |out| && i != n - 1 ==> out[i] == "\n"
  {
    var padded := if |lines| < n then lines + seq(n - |lines|, _ => "\n") else lines;
    padded[n - 1 := TrimNewlines(text) + "\n"]
  }

  /** The list work of `WriteLineAt`: append empty lines while there are
      fewer than `n`, then replace line `n`. */
  method Rewrite(lines: seq<string>, n: nat, text: string) returns (out: seq<string>)
    requires n >= 1
    ensures out == Padded(lines, n, text)
  {
    out := lines;
    while |out| < n
      invariant |lines| <= |out| <= (if |lines| < n then n else |lines|)
      invariant out[..|lines|] == lines
      invariant forall i :: |lines| <= i < |out| ==> out[i] == "\n"
    {
      out := out + ["\n"];
    }
    out := out[n - 1 := TrimNewlines(text) + "\n"];
    var spec := Padded(lines, n, text);
    assert |out| == |spec|;
    forall i | 0 <= i < |out| ensures out[i] == spec[i] {
      if i < |lines| && i != n - 1 {
        assert out[i] == out[..|lines|][i];
      }
    }
  }

  /** `WriteLineAt` as written: the new contents of the file. */
  function WriteLineAsWritten(content: Option<string>, n: nat, text: string): (r: string)
    requires n >= 1
    ensures content.Some? && |LinesOf(content)| < n ==> content.value <= r
  {
    var ls := LinesOf(content);
    var out := Padded(ls, n, text);
    if content.Some? && |ls| < n then
      assert out == ls + out[|ls|..];
      ConcatAppend(ls, out[|ls|..]);
      Concat(out)
    else Concat(out)
  }

  /** The last line given its newline, as `readlines` lists need before more
      lines are appended to them. */
  function Terminated(ls: seq<string>): (r: seq<string>)
    ensures |r| == |ls|
    ensures forall i :: 0 <= i < |ls| - 1 ==> r[i] == ls[i]
    ensures ls != [] ==> r[|ls| - 1] == if Ended(ls[|ls| - 1]) then ls[|ls| - 1] else ls[|ls| - 1] + "\n"
  {
    if ls != [] && !Ended(ls[|ls| - 1]) then ls[..|ls| - 1] + [ls[|ls| - 1] + "\n"] else ls
  }

  /** `WriteLineAt` corrected: the last line is ended before padding, so
      the file it writes always ends with a newline. */
  function WriteLine(content: Option<string>, n: nat, text: string): (r: string)
    requires n >= 1
    ensures r != [] && r[|r| - 1] == '\n'
  {
    var ls := Terminated(LinesOf(content));
    TerminatedEnded(LinesOf(content));
    PaddedEnded(ls, n, text);
    Concat(Padded(ls, n, text))
  }

  lemma TerminatedEnded(ls: seq<string>)
    ensures var r := Terminated(ls); r != [] ==> Ended(r[|r| - 1])
  {
    if ls != [] && !Ended(ls[|ls| - 1]) {
      var l := ls[|ls| - 1] + "\n";
      assert l[|l| - 1] == '\n';
    }
  }

  /** Padding a list whose last line is ended gives a list whose last line
      is ended. */
  lemma PaddedEnded(ls: seq<string>, n: nat, text: string)
    requires n >= 1
    requires ls != [] ==> Ended(ls[|ls| - 1])
    ensures var out := Padded(ls, n, text); Ended(out[|out| - 1])
    ensures var c := Concat(Padded(ls, n, text)); c != [] && c[|c| - 1] == '\n'
  {
    var out := Padded(ls, n, text);
    var t := TrimNewlines(text) + "\n";
    assert t[|t| - 1] == '\n';
    if |out| - 1 != n - 1 && |out| - 1 < |ls| {
      assert out[|out| - 1] == ls[|ls| - 1];
    }
    ConcatLast(out);
  }

  /** `WriteLineAt(path, n, text)`: the file at `path` gets the new contents;
      nothing else changes. */
  method WriteLineAt(fs: Tree, path: Path, n: nat, text: string) returns (r: Tree)
    requires n >= 1
    ensures r == fs[path := WriteLine(Read(fs, path), n, text)]
  {
    var lines: seq<string> := [];
    if path in fs {
      lines := ReadLines(fs[path]);
    }
    if lines != [] && !Ended(lines[|lines| - 1]) {
      lines := lines[..|lines| - 1] + [lines[|lines| - 1] + "\n"];
    }
    var out := Rewrite(lines, n, text);
    r := fs[path := Concat(out)];
  }

  lemma TerminatedLines(ls: seq<string>)
    requires forall i :: 0 <= i < |ls| ==> IsLine(ls[i])
    requires forall i :: 0 <= i < |ls| - 1 ==> Ended(ls[i])
    ensures forall i :: 0 <= i < |ls| ==>
      IsLine(Terminated(ls)[i]) && Ended(Terminated(ls)[i]) && Body(Terminated(ls)[i]) == Body(ls[i])
  {
    var r := Terminated(ls);
    if ls != [] && !Ended(ls[|ls| - 1]) {
      var l := ls[|ls| - 1];
      assert r[|ls| - 1] == l + "\n";
      assert (l + "\n")[..|l|] == l;
      assert '\n' !in l;
    }
  }

  /** The lines of a written file are the padded list itself. */
  lemma WriteLineLines(content: Option<string>, n: nat, text: string)
    requires n >= 1 && '\n' !in TrimNewlines(text)
    ensures ReadLines(WriteLine(content, n, text)) == Padded(Terminated(LinesOf(content)), n, text)
    ensures forall i :: 0 <= i < |Padded(Terminated(LinesOf(content)), n, text)| ==>
      Ended(Padded(Terminated(LinesOf(content)), n, text)[i])
  {
    var ls := Terminated(LinesOf(content));
    TerminatedLines(LinesOf(content));
    var out := Padded(ls, n, text);
    var t := TrimNewlines(text) + "\n";
    assert t[..|t| - 1] == TrimNewlines(text);
    assert IsLine(t) && Ended(t);
    assert IsLine("\n") && Ended("\n");
    forall i | 0 <= i < |out| ensures IsLine(out[i]) && Ended(out[i]) {
      if i != n - 1 && i < |ls| {
        assert out[i] == ls[i];
      }
    }
    ReadLinesConcat(out);
  }

  /** Reading line `n` after writing it gives the text without trailing
      newlines, when the text holds no other newline. */
  lemma ReadAfterWrite(content: Option<string>, n: nat, text: string)
    requires n >= 1 && '\n' !in TrimNewlines(text)
    ensures ReadLineAt(Some(WriteLine(content, n, text)), n) == Some(TrimNewlines(text))
  {
    WriteLineLines(content, n, text);
    var t := TrimNewlines(text) + "\n";
    assert t[..|t| - 1] == TrimNewlines(text);
  }

  /** Every other line reads as before; new lines between the old end and
      line `n` are empty; past that there is nothing. */
  lemma OtherLinesKept(content: Option<string>, n: nat, text: string, m: int)
    requires n >= 1 && '\n' !in TrimNewlines(text)
    requires m != n
    ensures ReadLineAt(Some(WriteLine(content, n, text)), m) ==
      if 1 <= m <= |LinesOf(content)| then ReadLineAt(content, m)
      else if |LinesOf(content)| < m < n then Some("")
      else None
  {
    WriteLineLines(content, n, text);
    TerminatedLines(LinesOf(content));
    assert "\n"[..0] == "";
  }

  /** The file ends up with max(old count, n) lines. */
  lemma LineCount(content: Option<string>, n: nat, text: string)
    requires n >= 1 && '\n' !in TrimNewlines(text)
    ensures |ReadLines(WriteLine(content, n, text))| == if |LinesOf(content)| < n then n else |LinesOf(content)|
  {
    WriteLineLines(content, n, text);
  }

  lemma {:induction false} ConcatLast(ls: seq<string>)
    requires ls != [] && ls[|ls| - 1] != []
    ensures Concat(ls) != [] && Concat(ls)[|Concat(ls)| - 1] == ls[|ls| - 1][|ls[|ls| - 1]| - 1]
  {
    ConcatAppend(ls[..|ls| - 1], [ls[|ls| - 1]]);
    assert ls == ls[..|ls| - 1] + [ls[|ls| - 1]];
    assert Concat([ls[|ls| - 1]]) == ls[|ls| - 1] + Concat([]);
  }

  /** On a file whose last line is ended (every file the corrected write
      produces) the code as written does the same thing. */
  lemma AsWrittenAgrees(content: Option<string>, n: nat, text: string)
    requires n >= 1
    requires content.Some? && content.value != [] ==> content.value[|content.value| - 1] == '\n'
    ensures WriteLineAsWritten(content, n, text) == WriteLine(content, n, text)
  {
    var ls := LinesOf(content);
    if ls != [] {
      ConcatLast(ls);
    }
  }

  /** Writing line 2 of a file holding one unended line glues the new line
      onto line 1: "abc" becomes "abcx\n", whose line 1 reads "abcx". */
  lemma UnendedLastLineMerged(c: string, x: string)
    requires c == "abc" && x == "x"
    ensures WriteLineAsWritten(Some(c), 2, x) == "abcx\n"
    ensures ReadLineAt(Some(c), 1) == Some("abc")
    ensures ReadLineAt(Some(WriteLineAsWritten(Some(c), 2, x)), 1) == Some("abcx\n"[..4])
  {
    assert '\n' !in c;
    IndexOfAppend('\n', c, []);
    assert c + [] == c;
    assert ReadLines(c) == [c];
    TrimEndOfClean(x, IsNewline);
    var out := Padded([c], 2, x);
    assert TrimNewlines(x) == "x";
    assert "x" + "\n" == "x\n";
    assert out[0] == c && out[1] == "x\n" && |out| == 2;
    assert out == [c, "x\n"];
    assert out[1..] == ["x\n"];
    assert Concat(["x\n"]) == "x\n" + Concat([]);
    assert Concat(out) == c + ("x\n" + "");
    var w := "abcx\n";
    var body := "abcx";
    assert '\n' !in body;
    assert w == body + ['\n'] + [];
    IndexOfAppend('\n', body, ['\n']);
    assert w[..5] == w;
    assert ReadLines(w) == [w];
  }
}
