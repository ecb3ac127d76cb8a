/** Grouping the command line of third_party/deps.py: `groupargs` gives every
    token a key `(count, cmd)` kept in a persistent state, and
    `itertools.groupby` collects runs of equal keys. */
module Grouping {
  import opened Wrappers

  datatype Key = Key(count: nat, cmd: string)
  datatype Group = Group(key: Key, args: seq<string>)

  /** The tokens cut before every command token: each piece is a command
      with its arguments, except a first piece of tokens that come before any
      command. */
  function Segments(known: seq<string>, ts: seq<string>): (s: seq<seq<string>>)
    ensures |s| == 0 <==> |ts| == 0
    ensures forall i :: 0 <= i < |s| ==> s[i] != []
    ensures forall i, j :: 0 <= i < |s| && 0 < j < |s[i]| ==> s[i][j] !in known
    ensures forall i :: 0 < i < |s| ==> s[i][0] in known
    ensures ts != [] ==> s[0][0] == ts[0]
    decreases |ts|
  {
    if ts == [] then []
    else
      var g := Segments(known, ts[..|ts| - 1]);
      var t := ts[|ts| - 1];
      if t in known || g == [] then g + [[t]]
      else
        assert |ts| > 1 ==> ts[..|ts| - 1][0] == ts[0];
        g[..|g| - 1] + [g[|g| - 1] + [t]]
  }

  function Flatten(gs: seq<seq<string>>): seq<string> {
    if gs == [] then [] else Flatten(gs[..|gs| - 1]) + gs[|gs| - 1]
  }

  lemma FlattenAppend(gs: seq<seq<string>>, x: seq<string>)
    ensures Flatten(gs + [x]) == Flatten(gs) + x
  {
    assert (gs + [x])[..|gs|] == gs;
  }

  /** The pieces put back together are the tokens. */
  lemma {:induction false} FlattenSegments(known: seq<string>, ts: seq<string>)
    ensures Flatten(Segments(known, ts)) == ts
  {
    if ts != [] {
      var init := ts[..|ts| - 1];
      var g := Segments(known, init);
      var t := ts[|ts| - 1];
      FlattenSegments(known, init);
      assert ts == init + [t];
      if t in known || g == [] {
        FlattenAppend(g, [t]);
      } else {
        var h := g[..|g| - 1];
        assert g == h + [g[|g| - 1]];
        FlattenAppend(h, g[|g| - 1]);
        FlattenAppend(h, g[|g| - 1] + [t]);
      }
    }
  }

  /** The key `groupargs` gives the tokens of piece `i`: the command and the
      number of commands so far, or `(0, "global")` for leading tokens. */
  function GroupKey(known: seq<string>, ts: seq<string>, i: nat): Key
    requires i < |Segments(known, ts)|
  {
    var s := Segments(known, ts);
    if ts[0] in known then Key(i + 1, s[i][0])
    else if i == 0 then Key(0, "global")
    else Key(i, s[i][0])
  }

  /** `[(key, list(args)) for key, args in groupby(tokens, groupargs)]` */
  function Grouped(known: seq<string>, ts: seq<string>): (gs: seq<Group>)
    ensures |gs| == |Segments(known, ts)|
    ensures forall i :: 0 <= i < |gs| ==> gs[i] == Group(GroupKey(known, ts, i), Segments(known, ts)[i])
  {
    var s := Segments(known, ts);
    seq(|s|, i requires 0 <= i < |s| => Group(GroupKey(known, ts, i), s[i]))
  }

  /** The persistent `state` dictionary of `groupargs`. */
  class ArgGrouper {
    const known: seq<string>
    var cmd: Option<string>
    var count: nat

    constructor(known: seq<string>)
      ensures this.known == known && cmd == None && count == 0
    {
      this.known := known;
      cmd := None;
      count := 0;
    }

    /** `groupargs(arg)`: a command token starts a new count; the first
        other token, before any command, sets the state to `(0, "global")`. */
    method KeyOf(arg: string) returns (k: Key)
      modifies this
      ensures arg in known ==> cmd == Some(arg) && count == old(count) + 1
      ensures arg !in known && old(cmd).None? ==> cmd == Some("global") && count == 0
      ensures arg !in known && old(cmd).Some? ==> cmd == old(cmd) && count == old(count)
      ensures cmd.Some? && k == Key(count, cmd.value)
    {
      if arg in known {
        cmd := Some(arg);
        count := count + 1;
      } else if cmd.None? {
        cmd := Some("global");
        count := 0;
      }
      k := Key(count, cmd.value);
    }
  }

  lemma GroupedStep(known: seq<string>, ts: seq<string>, i: nat)
    requires i < |ts|
    ensures var g := Grouped(known, ts[..i]);
      var t := ts[i];
      Grouped(known, ts[..i + 1]) ==
        if t in known then
          g + [Group(Key(if i == 0 then 1 else g[|g| - 1].key.count + 1, t), [t])]
        else if i == 0 then [Group(Key(0, "global"), [t])]
        else g[..|g| - 1] + [Group(g[|g| - 1].key, g[|g| - 1].args + [t])]
  {
    var pre := ts[..i];
    var now := ts[..i + 1];
    assert now[..i] == pre;
    assert now[i] == ts[i];
    var g := Grouped(known, pre);
    var s := Segments(known, pre);
    var s' := Segments(known, now);
    var g' := Grouped(known, now);
    var t := ts[i];
    if i > 0 {
      assert pre[0] == ts[0] && now[0] == ts[0];
    }
    if t in known {
      var want := g + [Group(Key(if i == 0 then 1 else g[|g| - 1].key.count + 1, t), [t])];
      assert s' == s + [[t]];
      assert |g'| == |want|;
      forall j | 0 <= j < |g'| ensures g'[j] == want[j] {
        if j < |g| {
          assert s'[j] == s[j];
        }
      }
    } else if i == 0 {
      assert s' == [[t]];
    } else {
      var want := g[..|g| - 1] + [Group(g[|g| - 1].key, g[|g| - 1].args + [t])];
      assert s' == s[..|s| - 1] + [s[|s| - 1] + [t]];
      assert |g'| == |want|;
      forall j | 0 <= j < |g'| ensures g'[j] == want[j] {
        if j < |g| - 1 {
          assert s'[j] == s[j];
        }
      }
    }
  }

  /** `groupargs` with `itertools.groupby` over the tokens, starting from a
      fresh state. */
  method GroupArgs(known: seq<string>, tokens: seq<string>) returns (groups: seq<Group>)
    ensures groups == Grouped(known, tokens)
  {
    var grouper := new ArgGrouper(known);
    groups := [];
    var i := 0;
    while i < |tokens|
      invariant 0 <= i <= |tokens|
      invariant groups == Grouped(known, tokens[..i])
      invariant i == 0 ==> grouper.cmd == None && grouper.count == 0
      invariant i > 0 ==> (groups != [] && grouper.cmd == Some(groups[|groups| - 1].key.cmd)
        && grouper.count == groups[|groups| - 1].key.count)
    {
      GroupedStep(known, tokens, i);
      var k := grouper.KeyOf(tokens[i]);
      if groups != [] && groups[|groups| - 1].key == k {
        groups := groups[..|groups| - 1] + [Group(k, groups[|groups| - 1].args + [tokens[i]])];
      } else {
        groups := groups + [Group(k, [tokens[i]])];
      }
      i := i + 1;
    }
    assert tokens[..i] == tokens;
  }

  /** Group counts strictly increase, and a group that is not the leading
      `global` one is headed by its command. */
  lemma GroupShape(known: seq<string>, ts: seq<string>)
    ensures var gs := Grouped(known, ts);
      forall i, j :: 0 <= i < j < |gs| ==> gs[i].key.count < gs[j].key.count
    ensures var gs := Grouped(known, ts);
      forall i :: 0 <= i < |gs| && !(i == 0 && gs[i].key == Key(0, "global")) ==>
        gs[i].args[0] == gs[i].key.cmd && gs[i].key.cmd in known
    ensures var gs := Grouped(known, ts);
      forall i, j :: 0 <= i < |gs| && 0 < j < |gs[i].args| ==> gs[i].args[j] !in known
  {
  }

  /** There is a `global` group exactly when the first token is not a
      command; it is then the first group and has count 0. */
  lemma GlobalGroup(known: seq<string>, ts: seq<string>)
    requires "global" !in known
    ensures var gs := Grouped(known, ts);
      (exists i :: 0 <= i < |gs| && gs[i].key.cmd == "global") <==> (ts != [] && ts[0] !in known)
    ensures var gs := Grouped(known, ts);
      ts != [] && ts[0] !in known ==> gs[0].key == Key(0, "global")
  {
    var gs := Grouped(known, ts);
    if ts != [] && ts[0] !in known {
      assert gs[0].key.cmd == "global";
    }
  }

  /** The leading `global` group popped off, as `main` does. */
  function SplitGlobal(groups: seq<Group>): (seq<string>, seq<Group>) {
    if groups != [] && groups[0].key.cmd == "global" then (groups[0].args, groups[1..]) else ([], groups)
  }

  /** The global arguments are the tokens before the first command, and
      every remaining group is a command with its arguments. */
  lemma GlobalArgs(known: seq<string>, ts: seq<string>)
    requires "global" !in known
    ensures var (global, rest) := SplitGlobal(Grouped(known, ts));
      && (forall j :: 0 <= j < |global| ==> global[j] !in known)
      && global <= ts
      && (global == [] ==> ts == [] || ts[0] in known)
      && (forall i :: 0 <= i < |rest| ==> rest[i].args != [] && rest[i].args[0] == rest[i].key.cmd && rest[i].key.cmd in known)
  {
    var gs := Grouped(known, ts);
    var s := Segments(known, ts);
    FlattenSegments(known, ts);
    if gs != [] && gs[0].key.cmd == "global" {
      FlattenPrefix(s);
    }
  }

  lemma {:induction false} FlattenPrefix(gs: seq<seq<string>>)
    requires gs != []
    ensures gs[0] <= Flatten(gs)
  {
    if |gs| > 1 {
      FlattenPrefix(gs[..|gs| - 1]);
    }
  }
}
