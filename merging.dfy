/** `HdrLogMerging.merge_logs` of bin/common.py: the per-host histogram logs
    found one level below the result directory are grouped by file stem, and
    each group is merged by one local `union` command into a log of that stem
    directly in the result directory.  The glob result is an input, in the
    order the glob yields it. */
module Merging {
  import opened Effects
  import opened Paths

  // ----- grouping ----------------------------------------------------------
  // `files_map` groups the found logs by a key computed from each path; the
  // key `merge_logs` uses is `StemOf`.  The grouping facts hold for any key.

  /** The distinct keys of `found`, in the order their first member was found:
      the key order of `files_map`. */
  function Stems(found: seq<string>, key: string -> string): seq<string>
    decreases |found|
  {
    if found == [] then []
    else
      var init := Stems(found[..|found| - 1], key);
      var s := key(found[|found| - 1]);
      if s in init then init else init + [s]
  }

  /** The members of the group `stem`, in discovery order. */
  function Group(found: seq<string>, key: string -> string, stem: string): seq<string>
    decreases |found|
  {
    if found == [] then []
    else
      var last := found[|found| - 1];
      Group(found[..|found| - 1], key, stem) + (if key(last) == stem then [last] else [])
  }

  /** The set of keys of the found logs. */
  function StemSet(found: seq<string>, key: string -> string): set<string>
  {
    set i | 0 <= i < |found| :: key(found[i])
  }

  /** Total size of the groups named in `stems`. */
  function GroupSizes(found: seq<string>, key: string -> string, stems: seq<string>): nat
    decreases |stems|
  {
    if stems == [] then 0
    else GroupSizes(found, key, stems[..|stems| - 1]) + |Group(found, key, stems[|stems| - 1])|
  }

  predicate Distinct(s: seq<string>)
  {
    forall i, j :: 0 <= i < j < |s| ==> s[i] != s[j]
  }

  lemma StemsSnoc(init: seq<string>, x: string, key: string -> string)
    ensures Stems(init + [x], key) == if key(x) in Stems(init, key) then Stems(init, key) else Stems(init, key) + [key(x)]
  {
    assert (init + [x])[..|init|] == init;
  }

  lemma GroupSnoc(init: seq<string>, x: string, key: string -> string, stem: string)
    ensures Group(init + [x], key, stem) == Group(init, key, stem) + (if key(x) == stem then [x] else [])
  {
    assert (init + [x])[..|init|] == init;
  }

  lemma StemSetSnoc(init: seq<string>, x: string, key: string -> string)
    ensures StemSet(init + [x], key) == StemSet(init, key) + {key(x)}
  {
    var found := init + [x];
    forall s | s in StemSet(found, key)
      ensures s in StemSet(init, key) + {key(x)}
    {
      var i :| 0 <= i < |found| && key(found[i]) == s;
      if i < |init| {
        assert found[i] == init[i];
      }
    }
    forall s | s in StemSet(init, key)
      ensures s in StemSet(found, key)
    {
      var i :| 0 <= i < |init| && key(init[i]) == s;
      assert found[i] == init[i];
    }
    assert found[|init|] == x;
  }

  /** A key that never occurs has an empty group. */
  lemma {:induction false} GroupOfAbsentKey(found: seq<string>, key: string -> string, stem: string)
    requires stem !in Stems(found, key)
    ensures Group(found, key, stem) == []
    decreases |found|
  {
    if found != [] {
      var init := found[..|found| - 1];
      assert found == init + [found[|found| - 1]];
      StemsSnoc(init, found[|found| - 1], key);
      GroupOfAbsentKey(init, key, stem);
    }
  }

  /** `order` and `groups` hold the key order and the groups of `found`. */
  ghost predicate Grouped(found: seq<string>, key: string -> string, order: seq<string>, groups: map<string, seq<string>>)
  {
    order == Stems(found, key)
    && (forall s :: s in groups <==> s in order)
    && (forall s :: s in groups ==> groups[s] == Group(found, key, s))
  }

  /** Filing one more log under its key keeps the dictionary and its key
      order in step with the logs seen so far. */
  lemma GroupedSnoc(prefix: seq<string>, x: string, key: string -> string,
                    order: seq<string>, groups: map<string, seq<string>>,
                    order': seq<string>, groups': map<string, seq<string>>)
    requires Grouped(prefix, key, order, groups)
    requires order' == if key(x) in groups then order else order + [key(x)]
    requires forall s :: s in groups' <==> s in groups || s == key(x)
    requires forall s :: s in groups' && s != key(x) ==> groups'[s] == groups[s]
    requires key(x) in groups' && groups'[key(x)] == (if key(x) in groups then groups[key(x)] else []) + [x]
    ensures Grouped(prefix + [x], key, order', groups')
  {
    var base := key(x);
    StemsSnoc(prefix, x, key);
    if base !in groups {
      GroupOfAbsentKey(prefix, key, base);
    }
    forall s | s in groups'
      ensures groups'[s] == Group(prefix + [x], key, s)
    {
      GroupSnoc(prefix, x, key, s);
    }
  }

  /** The loop of `merge_logs` that fills `files_map`, keyed by `key`;
      `order` is the key order of the dictionary. */
  method GroupByStem(found: seq<string>, key: string -> string) returns (order: seq<string>, groups: map<string, seq<string>>)
    ensures order == Stems(found, key)
    ensures forall s :: s in groups <==> s in order
    ensures forall s :: s in groups ==> groups[s] == Group(found, key, s)
  {
    order := [];
    groups := map[];
    var i := 0;
    while i < |found|
      invariant 0 <= i <= |found|
      invariant Grouped(found[..i], key, order, groups)
    {
      var base := key(found[i]);
      ghost var order0, groups0 := order, groups;
      if base !in groups {
        groups := groups[base := []];
        order := order + [base];
      }
      groups := groups[base := groups[base] + [found[i]]];
      GroupedSnoc(found[..i], found[i], key, order0, groups0, order, groups);
      assert found[..i + 1] == found[..i] + [found[i]];
      i := i + 1;
    }
    assert found[..|found|] == found;
  }

  /** Each key occurs once in the key order. */
  lemma {:induction false} StemsDistinct(found: seq<string>, key: string -> string)
    ensures Distinct(Stems(found, key))
    decreases |found|
  {
    if found != [] {
      var init := found[..|found| - 1];
      assert found == init + [found[|found| - 1]];
      StemsDistinct(init, key);
      StemsSnoc(init, found[|found| - 1], key);
    }
  }

  /** The groups are exactly the distinct keys of the found logs, so there
      are as many groups as distinct keys. */
  lemma {:induction false} StemsAreStemSet(found: seq<string>, key: string -> string)
    ensures forall s :: s in Stems(found, key) <==> s in StemSet(found, key)
    ensures |Stems(found, key)| == |StemSet(found, key)|
    decreases |found|
  {
    if found != [] {
      var init := found[..|found| - 1];
      var x := found[|found| - 1];
      assert found == init + [x];
      StemsAreStemSet(init, key);
      StemsSnoc(init, x, key);
      StemSetSnoc(init, x, key);
      var known := StemSet(init, key);
      if key(x) in Stems(init, key) {
        assert known + {key(x)} == known;
      } else {
        assert key(x) !in known;
        assert |known + {key(x)}| == |known| + 1;
      }
    }
  }

  /** Every occurrence of a found log lands in the group of its own key and
      in no other. */
  lemma {:induction false} GroupMembers(found: seq<string>, key: string -> string, stem: string)
    ensures forall p :: multiset(Group(found, key, stem))[p] == (if key(p) == stem then multiset(found)[p] else 0)
    decreases |found|
  {
    if found != [] {
      var init := found[..|found| - 1];
      var last := found[|found| - 1];
      assert found == init + [last];
      GroupMembers(init, key, stem);
      GroupSnoc(init, last, key, stem);
      assert multiset(found) == multiset(init) + multiset{last};
    }
  }

  /** Adding one log to the found list adds one to the total size of any list
      of distinct groups that contains its key, and nothing otherwise. */
  lemma {:induction false} GroupSizesStep(init: seq<string>, x: string, key: string -> string, stems: seq<string>)
    requires Distinct(stems)
    ensures GroupSizes(init + [x], key, stems) == GroupSizes(init, key, stems) + (if key(x) in stems then 1 else 0)
    decreases |stems|
  {
    if stems != [] {
      var front := stems[..|stems| - 1];
      assert Distinct(front);
      GroupSizesStep(init, x, key, front);
      GroupSnoc(init, x, key, stems[|stems| - 1]);
      assert stems == front + [stems[|stems| - 1]];
    }
  }

  /** The groups partition the found logs: their sizes add up to the number
      of logs found. */
  lemma {:induction false} GroupsPartition(found: seq<string>, key: string -> string)
    ensures GroupSizes(found, key, Stems(found, key)) == |found|
    decreases |found|
  {
    if found != [] {
      var init := found[..|found| - 1];
      var x := found[|found| - 1];
      var t := key(x);
      assert found == init + [x];
      GroupsPartition(init, key);
      StemsDistinct(found, key);
      StemsSnoc(init, x, key);
      GroupSizesStep(init, x, key, Stems(found, key));
      if t !in Stems(init, key) {
        var stems := Stems(init, key) + [t];
        assert stems[..|stems| - 1] == Stems(init, key);
        GroupOfAbsentKey(init, key, t);
      }
    }
  }

  // ----- the union commands ------------------------------------------------

  /** The `input` string of one group: ` -ifp <file>` per member. */
  function IfpFlags(files: seq<string>): string
    decreases |files|
  {
    if files == [] then "" else IfpFlags(files[..|files| - 1]) + " -ifp " + files[|files| - 1]
  }

  /** The flags of a list are the flags of its parts, one after the other. */
  lemma {:induction false} IfpFlagsAppend(a: seq<string>, b: seq<string>)
    ensures IfpFlags(a + b) == IfpFlags(a) + IfpFlags(b)
    ensures IfpFlags([]) == "" && forall f :: IfpFlags([f]) == " -ifp " + f
    decreases |b|
  {
    assert forall f: string :: [f][..0] == [];
    if b == [] {
      assert a + b == a;
    } else {
      var b' := b[..|b| - 1];
      IfpFlagsAppend(a, b');
      assert (a + b)[..|a + b| - 1] == a + b';
    }
  }

  /** The loop that builds `input`. */
  method UnionInput(files: seq<string>) returns (input: string)
    ensures input == IfpFlags(files)
  {
    input := "";
    var i := 0;
    while i < |files|
      invariant 0 <= i <= |files|
      invariant input == IfpFlags(files[..i])
    {
      assert files[..i + 1][..i] == files[..i];
      input := input + " -ifp " + files[i];
      i := i + 1;
    }
    assert files[..|files|] == files;
  }

  /** `f"{os.environ['SSO']}/lib/"`. */
  function LibDir(ssoHome: string): string { ssoHome + "/lib/" }

  /** Where the merged log of a stem is written: `{dir}/{name}.hdr`. */
  function MergedPath(dir: string, stem: string): string { dir + "/" + stem + ".hdr" }

  const UNION_TOOL: string := "/processor.jar CommandDispatcherMain union "

  function UnionCommand(jvmPath: string, ssoHome: string, dir: string, stem: string, input: string): string
  {
    jvmPath + "/bin/java -cp " + LibDir(ssoHome) + UNION_TOOL + input + " -of " + MergedPath(dir, stem)
  }

  /** The union commands for the groups `stems` of `found`, in that order. */
  function UnionCommands(jvmPath: string, ssoHome: string, dir: string, found: seq<string>, stems: seq<string>): (r: seq<string>)
    ensures |r| == |stems|
    decreases |stems|
  {
    if stems == [] then []
    else
      var s := stems[|stems| - 1];
      UnionCommands(jvmPath, ssoHome, dir, found, stems[..|stems| - 1])
        + [UnionCommand(jvmPath, ssoHome, dir, s, IfpFlags(Group(found, StemOf, s)))]
  }

  /** One more group adds its union command at the end. */
  lemma UnionCommandsSnoc(jvmPath: string, ssoHome: string, dir: string, found: seq<string>, stems: seq<string>, i: nat)
    requires i < |stems|
    ensures UnionCommands(jvmPath, ssoHome, dir, found, stems[..i + 1])
      == UnionCommands(jvmPath, ssoHome, dir, found, stems[..i])
         + [UnionCommand(jvmPath, ssoHome, dir, stems[i], IfpFlags(Group(found, StemOf, stems[i])))]
  {
    assert stems[..i + 1][..i] == stems[..i];
  }

  /** The local commands of `merge_logs`, one per group in key order. */
  function MergePlan(jvmPath: string, ssoHome: string, dir: string, found: seq<string>): (r: seq<string>)
    ensures |r| == |Stems(found, StemOf)|
  {
    UnionCommands(jvmPath, ssoHome, dir, found, Stems(found, StemOf))
  }

  /** The `k`-th union command merges the `k`-th group. */
  lemma {:induction false} UnionCommandsAt(jvmPath: string, ssoHome: string, dir: string, found: seq<string>, stems: seq<string>, k: nat)
    requires k < |stems|
    ensures UnionCommands(jvmPath, ssoHome, dir, found, stems)[k]
      == UnionCommand(jvmPath, ssoHome, dir, stems[k], IfpFlags(Group(found, StemOf, stems[k])))
    decreases |stems|
  {
    if k < |stems| - 1 {
      UnionCommandsAt(jvmPath, ssoHome, dir, found, stems[..|stems| - 1], k);
    }
  }

  /** Distinct stems are merged into distinct files. */
  lemma MergedPathInjective(dir: string, a: string, b: string)
    requires MergedPath(dir, a) == MergedPath(dir, b)
    ensures a == b
  {
    var n := |dir| + 1;
    assert a == MergedPath(dir, a)[n..|MergedPath(dir, a)| - 4];
    assert b == MergedPath(dir, b)[n..|MergedPath(dir, b)| - 4];
  }

  /** No two union commands of one call write the same file. */
  lemma MergeOutputsDistinct(dir: string, found: seq<string>)
    ensures var stems := Stems(found, StemOf);
      forall i, j :: 0 <= i < j < |stems| ==> MergedPath(dir, stems[i]) != MergedPath(dir, stems[j])
  {
    var stems := Stems(found, StemOf);
    StemsDistinct(found, StemOf);
    forall i, j | 0 <= i < j < |stems|
      ensures MergedPath(dir, stems[i]) != MergedPath(dir, stems[j])
    {
      if MergedPath(dir, stems[i]) == MergedPath(dir, stems[j]) {
        MergedPathInjective(dir, stems[i], stems[j]);
      }
    }
  }

  /** A merged log sits directly in `dir`: it never has the shape
      `dir/<x>/<y>` of the logs that the per-host glob of `merge_logs` picks up, so a
      second merge does not take a merged log as an input. */
  lemma MergedIsNotAHostLog(dir: string, stem: string, x: string, y: string)
    requires NoSlash(stem)
    ensures MergedPath(dir, stem) != dir + "/" + x + "/" + y
  {
    var m := MergedPath(dir, stem);
    var h := dir + "/" + x + "/" + y;
    assert h[|dir| + 1 + |x|] == '/';
    if |m| == |h| {
      assert m[|dir| + 1 + |x|] != '/';
    }
  }

  /** Hence no output of `merge_logs` has the shape of a per-host log. */
  lemma MergeOutputsAreNotHostLogs(dir: string, found: seq<string>, x: string, y: string)
    ensures forall s :: s in Stems(found, StemOf) ==> MergedPath(dir, s) != dir + "/" + x + "/" + y
  {
    StemsAreStemSet(found, StemOf);
    forall s | s in Stems(found, StemOf)
      ensures MergedPath(dir, s) != dir + "/" + x + "/" + y
    {
      var i :| 0 <= i < |found| && StemOf(found[i]) == s;
      MergedIsNotAHostLog(dir, s, x, y);
    }
  }

  class HdrLogMerging {
    /** `properties['jvm_path']`. */
    const jvmPath: string
    /** The `SSO` environment variable. */
    const ssoHome: string

    constructor (jvmPath: string, ssoHome: string)
      ensures this.jvmPath == jvmPath && this.ssoHome == ssoHome
    {
      this.jvmPath := jvmPath;
      this.ssoHome := ssoHome;
    }

    /** `merge_logs(dir)`, given the logs the glob one level below `dir` yields.
        The exit statuses of the union commands are ignored. */
    method MergeLogs(env: Env, dir: string, found: seq<string>)
      modifies env
      ensures env.events == old(env.events) + LocalEvents(MergePlan(jvmPath, ssoHome, dir, found))
      ensures env.cwd == old(env.cwd)
    {
      var order, groups := GroupByStem(found, StemOf);
      var i := 0;
      while i < |order|
        invariant 0 <= i <= |order|
        invariant env.events == old(env.events) + LocalEvents(UnionCommands(jvmPath, ssoHome, dir, found, order[..i]))
        invariant env.cwd == old(env.cwd)
      {
        var name := order[i];
        var input := UnionInput(groups[name]);
        var cmd := UnionCommand(jvmPath, ssoHome, dir, name, input);
        ghost var done := UnionCommands(jvmPath, ssoHome, dir, found, order[..i]);
        UnionCommandsSnoc(jvmPath, ssoHome, dir, found, order, i);
        ghost var mid := env.events;
        var _ := env.Spawn(Local(cmd));
        LocalEventsPush(old(env.events), mid, env.events, done, cmd);
        i := i + 1;
      }
      assert order[..|order|] == order;
    }
  }
}
