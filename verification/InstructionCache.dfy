/**
 * Scoped project instructions and their content-keyed cache: the files that
 * apply to a target, the text they combine to, and a bounded cache in order of
 * use that never changes an answer.
 */
module InstructionCache {

  import opened Core

  // Components of an absolute path; the empty path is the file system root.
  type Path = seq<string>

  // What the loader can see: instruction files it can read, and which paths
  // are files at all.
  datatype Files = Files(readable: map<Path, string>, files: set<Path>)

  datatype Record = Record(path: Path, content: string)

  const NAMES := ["KHAOS.md", "AGENTS.md", "khaos.md", "agents.md"]

  const CAPACITY := 128

  // --- Without a cache ----------------------------------------------------

  // Instruction files of one directory, in the order of the names.
  function Matches(fs: Files, dir: Path, names: seq<string>): seq<Record> {
    if names == [] then []
    else
      var candidate := dir + [names[0]];
      (if candidate in fs.readable then [Record(candidate, fs.readable[candidate])] else []) + Matches(fs, dir, names[1..])
  }

  // All files of the nearest directory at or above that has any, not going
  // beyond the home directory.
  function RootContext(fs: Files, dir: Path, home: Path): seq<Record>
    decreases |dir|
  {
    var found := Matches(fs, dir, NAMES);
    if found != [] then found
    else if dir == home || dir == [] then []
    else RootContext(fs, dir[..|dir| - 1], home)
  }

  // The directories below `current` on the way to the target.
  function Below(fs: Files, current: Path, parts: seq<string>): seq<Path>
    decreases |parts|
  {
    if parts == [] then []
    else
      var next := current + [parts[0]];
      if next in fs.files then [] else [next] + Below(fs, next, parts[1..])
  }

  function Without(rs: seq<Record>, paths: set<Path>): seq<Record> {
    if rs == [] then []
    else (if rs[0].path in paths then [] else [rs[0]]) + Without(rs[1..], paths)
  }

  function Chain(fs: Files, dirs: seq<Path>, rootPaths: set<Path>): seq<Record> {
    if dirs == [] then []
    else FoundIn(fs, dirs[0], rootPaths) + Chain(fs, dirs[1..], rootPaths)
  }

  function FoundIn(fs: Files, dir: Path, rootPaths: set<Path>): seq<Record> {
    Without(Matches(fs, dir, NAMES), rootPaths)
  }

  function Contents(rs: seq<Record>): seq<string> {
    if rs == [] then [] else [rs[0].content] + Contents(rs[1..])
  }

  // Add each text that is not there yet.
  function AddNew(parts: seq<string>, rs: seq<Record>): seq<string>
    decreases |rs|
  {
    if rs == [] then parts
    else AddNew(if rs[0].content in parts then parts else parts + [rs[0].content], rs[1..])
  }

  function Join(parts: seq<string>): string {
    if parts == [] then "" else if |parts| == 1 then parts[0] else parts[0] + "\n\n" + Join(parts[1..])
  }

  function PathsOf(rs: seq<Record>): set<Path> {
    set i | 0 <= i < |rs| :: rs[i].path
  }

  function RootRecords(fs: Files, root: Path, home: Path): seq<Record> {
    RootContext(fs, root, home)
  }

  function ChainRecords(fs: Files, root: Path, home: Path, target: Path): seq<Record>
    requires root <= target
  {
    Chain(fs, [root] + Below(fs, root, target[|root|..]), PathsOf(RootRecords(fs, root, home)))
  }

  // The instructions for a target in the project.
  function Uncached(fs: Files, root: Path, home: Path, target: Path): string
    requires root <= target
  {
    Join(AddNew(Contents(RootRecords(fs, root, home)), ChainRecords(fs, root, home, target)))
  }

  // --- What these are -----------------------------------------------------

  // One name finds the readable file of that name, if there is one; with the
  // law for lists of names this says what is found, and in which order.
  lemma MatchesOne(fs: Files, dir: Path, name: string)
    ensures Matches(fs, dir, [name]) ==
      if dir + [name] in fs.readable then [Record(dir + [name], fs.readable[dir + [name]])] else []
  {
    assert [name][1..] == [];
  }

  // Where the upward walk ends: at the home directory if it passes it.
  function Stop(dir: Path, home: Path): nat {
    if home <= dir then |home| else 0
  }

  // The root context is that of the nearest directory at or above with any
  // instruction file, not beyond the stop, and empty if there is none.
  lemma {:induction false} RootContextIs(fs: Files, dir: Path, home: Path)
    ensures
      || (exists n :: Stop(dir, home) <= n <= |dir| && Nearest(fs, dir, n) && RootContext(fs, dir, home) == Matches(fs, dir[..n], NAMES))
      || (RootContext(fs, dir, home) == [] && forall n | Stop(dir, home) <= n <= |dir| :: Matches(fs, dir[..n], NAMES) == [])
    decreases |dir|
  {
    assert dir[..|dir|] == dir;
    if Matches(fs, dir, NAMES) != [] {
      assert Nearest(fs, dir, |dir|);
    } else if dir != home && dir != [] {
      var up := dir[..|dir| - 1];
      RootContextIs(fs, up, home);
      assert Stop(up, home) == Stop(dir, home);
      forall n | 0 <= n <= |up| ensures up[..n] == dir[..n] {}
      if n :| Stop(up, home) <= n <= |up| && Nearest(fs, up, n) && RootContext(fs, up, home) == Matches(fs, up[..n], NAMES) {
        assert Nearest(fs, dir, n) by {
          forall m | n < m <= |dir| ensures Matches(fs, dir[..m], NAMES) == [] {
            if m < |dir| { assert up[..m] == dir[..m]; }
          }
        }
      }
    }
  }

  // The first `n` components name the nearest directory with a file.
  ghost predicate Nearest(fs: Files, dir: Path, n: nat)
    requires n <= |dir|
  {
    Matches(fs, dir[..n], NAMES) != [] && forall m | n < m <= |dir| :: Matches(fs, dir[..m], NAMES) == []
  }

  // The directories of the chain: one component deeper each, up to the target
  // or to the first that is a file.
  lemma {:induction false} BelowIs(fs: Files, current: Path, parts: seq<string>)
    ensures var dirs := Below(fs, current, parts);
      && |dirs| <= |parts|
      && (forall i | 0 <= i < |dirs| :: dirs[i] == current + parts[..i + 1] && dirs[i] !in fs.files)
      && (|dirs| < |parts| ==> current + parts[..|dirs| + 1] in fs.files)
    decreases |parts|
  {
    if parts != [] {
      var next := current + [parts[0]];
      assert parts[..1] == [parts[0]];
      if next !in fs.files {
        BelowIs(fs, next, parts[1..]);
        forall i | 0 <= i < |parts| ensures current + parts[..i + 1] == next + parts[1..][..i] {
          assert parts[..i + 1] == [parts[0]] + parts[1..][..i];
        }
      }
    }
  }

  // A record is in the chain exactly when a directory of it has that file and
  // the root context does not.
  lemma {:induction false} ChainHasIff(fs: Files, dirs: seq<Path>, paths: set<Path>, r: Record)
    ensures r in Chain(fs, dirs, paths) <==>
      r.path !in paths && exists i :: 0 <= i < |dirs| && r in Matches(fs, dirs[i], NAMES)
  {
    if dirs != [] {
      ChainHasIff(fs, dirs[1..], paths, r);
      WithoutHasIff(Matches(fs, dirs[0], NAMES), paths, r);
      if i :| 0 <= i < |dirs[1..]| && r in Matches(fs, dirs[1..][i], NAMES) { assert dirs[i + 1] == dirs[1..][i]; }
      if i :| 0 <= i < |dirs| && r in Matches(fs, dirs[i], NAMES) {
        if i > 0 { assert dirs[1..][i - 1] == dirs[i]; }
      }
    }
  }

  lemma {:induction false} WithoutHasIff(rs: seq<Record>, paths: set<Path>, r: Record)
    ensures r in Without(rs, paths) <==> r in rs && r.path !in paths
  {
    if rs != [] {
      WithoutHasIff(rs[1..], paths, r);
      assert rs == [rs[0]] + rs[1..];
    }
  }

  lemma {:induction false} MatchesLieIn(fs: Files, dir: Path, names: seq<string>, r: Record)
    requires r in Matches(fs, dir, names)
    ensures exists name :: name in names && r.path == dir + [name] && r.path in fs.readable && fs.readable[r.path] == r.content
  {
    if r in Matches(fs, dir, names[1..]) {
      MatchesLieIn(fs, dir, names[1..], r);
    } else {
      assert names[0] in names;
    }
  }

  // Nothing leaks in from beside: every instruction of the chain lies in a
  // directory between the project root and the target.
  lemma ChainIsOnTheWay(fs: Files, root: Path, home: Path, target: Path, r: Record)
    requires root <= target && r in ChainRecords(fs, root, home, target)
    ensures r.path != [] && root <= r.path[..|r.path| - 1] <= target
    ensures r.path in fs.readable && fs.readable[r.path] == r.content
  {
    var parts := target[|root|..];
    var dirs := [root] + Below(fs, root, parts);
    ChainHasIff(fs, dirs, PathsOf(RootRecords(fs, root, home)), r);
    var i :| 0 <= i < |dirs| && r in Matches(fs, dirs[i], NAMES);
    MatchesLieIn(fs, dirs[i], NAMES, r);
    BelowIs(fs, root, parts);
    assert target == root + parts;
    assert r.path[..|r.path| - 1] == dirs[i];
    if i > 0 { assert dirs[i] == root + parts[..i]; }
  }

  // --- How the texts combine ----------------------------------------------

  // Texts are joined by an empty line; with one text nothing is added.
  lemma {:induction false} JoinLaws(a: seq<string>, b: seq<string>, x: string)
    ensures Join([]) == "" && Join([x]) == x
    ensures a != [] && b != [] ==> Join(a + b) == Join(a) + ("\n\n" + Join(b))
    decreases |a|
  {
    if a != [] && b != [] {
      assert (a + b)[1..] == a[1..] + b && (a + b)[0] == a[0];
      if |a| == 1 {
        assert a[1..] + b == b;
        Associative(a[0], "\n\n", Join(b));
      } else {
        JoinLaws(a[1..], b, x);
        Associative(a[0] + "\n\n", Join(a[1..]), "\n\n" + Join(b));
      }
    }
  }

  // The first record with a text, or the end.
  function FirstWith(rs: seq<Record>, text: string): nat {
    if rs == [] || rs[0].content == text then 0 else 1 + FirstWith(rs[1..], text)
  }

  // `all` is `parts` and then every other text of the records once, in the
  // order in which they first come.
  ghost predicate Combined(parts: seq<string>, rs: seq<Record>, all: seq<string>) {
    && parts <= all
    && (forall i | 0 <= i < |rs| :: rs[i].content in all)
    && (forall i | |parts| <= i < |all| :: all[i] !in parts && FirstWith(rs, all[i]) < |rs|)
    && (forall i, j | |parts| <= i < j < |all| :: FirstWith(rs, all[i]) < FirstWith(rs, all[j]))
  }

  lemma {:induction false} FirstWithAppend(rs: seq<Record>, r: Record, text: string)
    ensures FirstWith(rs, text) <= |rs|
    ensures FirstWith(rs + [r], text) ==
      if FirstWith(rs, text) < |rs| then FirstWith(rs, text) else if r.content == text then |rs| else |rs| + 1
    ensures FirstWith(rs, text) == |rs| ==> forall i | 0 <= i < |rs| :: rs[i].content != text
    ensures FirstWith(rs, text) < |rs| ==> rs[FirstWith(rs, text)].content == text
  {
    if rs != [] {
      assert (rs + [r])[1..] == rs[1..] + [r] && (rs + [r])[0] == rs[0];
      FirstWithAppend(rs[1..], r, text);
    } else {
      assert [r][1..] == [];
      assert rs + [r] == [r];
    }
  }

  lemma {:induction false} AddNewCombines(parts: seq<string>, rs: seq<Record>)
    ensures Combined(parts, rs, AddNew(parts, rs))
    decreases |rs|
  {
    if rs != [] {
      var front, r := rs[..|rs| - 1], rs[|rs| - 1];
      assert rs == front + [r];
      AddNewCombines(parts, front);
      AddNewAppend(parts, front, [r]);
      assert [r][1..] == [];
      CombinedStep(parts, front, r, AddNew(parts, front), AddNew(parts, rs));
    }
  }

  lemma {:induction false} NotAmong(rs: seq<Record>, all: seq<string>, text: string)
    requires (forall i | 0 <= i < |rs| :: rs[i].content in all) && text !in all
    ensures FirstWith(rs, text) == |rs|
  {
    if rs != [] {
      assert rs[0].content in all;
      NotAmong(rs[1..], all, text);
    }
  }

  lemma CombinedStep(parts: seq<string>, rs: seq<Record>, r: Record, all: seq<string>, all': seq<string>)
    requires Combined(parts, rs, all) && all' == if r.content in all then all else all + [r.content]
    ensures Combined(parts, rs + [r], all')
  {
    forall text ensures FirstWith(rs, text) < |rs| ==> FirstWith(rs + [r], text) == FirstWith(rs, text) {
      FirstWithAppend(rs, r, text);
    }
    forall i | 0 <= i < |rs + [r]| ensures (rs + [r])[i].content in all' {
      if i < |rs| { assert rs[i].content in all; }
    }
    if r.content !in all {
      FirstWithAppend(rs, r, r.content);
      NotAmong(rs, all, r.content);
      assert all'[|all|] == r.content;
    }
  }

  // --- The records determine the text -------------------------------------

  // A record of the root context lies at or above the project root, a record
  // of the chain below it.
  predicate Above(root: Path, r: Record) {
    |r.path| <= |root| + 1
  }

  function Pick(root: Path, above: bool, rs: seq<Record>): seq<Record> {
    if rs == [] then []
    else (if Above(root, rs[0]) == above then [rs[0]] else []) + Pick(root, above, rs[1..])
  }

  // What the recorded paths and contents alone say the text is.
  function TextOf(root: Path, records: seq<Record>): string {
    Join(AddNew(Contents(Pick(root, true, records)), Pick(root, false, records)))
  }

  ghost predicate AllAbove(root: Path, above: bool, rs: seq<Record>) {
    forall i | 0 <= i < |rs| :: Above(root, rs[i]) == above
  }

  lemma {:induction false} PickSplits(root: Path, a: seq<Record>, b: seq<Record>)
    requires AllAbove(root, true, a) && AllAbove(root, false, b)
    ensures Pick(root, true, a + b) == a && Pick(root, false, a + b) == b
  {
    if a != [] {
      assert (a + b)[1..] == a[1..] + b;
      PickSplits(root, a[1..], b);
    } else if b != [] {
      assert a + b == b;
      assert [] + b[1..] == b[1..];
      PickSplits(root, [], b[1..]);
    }
  }

  lemma {:induction false} MatchesDepth(fs: Files, dir: Path, names: seq<string>)
    ensures forall i | 0 <= i < |Matches(fs, dir, names)| :: |Matches(fs, dir, names)[i].path| == |dir| + 1
  {
    if names != [] { MatchesDepth(fs, dir, names[1..]); }
  }

  lemma {:induction false} RootContextAbove(fs: Files, root: Path, dir: Path, home: Path)
    requires |dir| <= |root|
    ensures AllAbove(root, true, RootContext(fs, dir, home))
    decreases |dir|
  {
    MatchesDepth(fs, dir, NAMES);
    if Matches(fs, dir, NAMES) == [] && dir != home && dir != [] {
      RootContextAbove(fs, root, dir[..|dir| - 1], home);
    }
  }

  lemma {:induction false} WithoutBelow(root: Path, rs: seq<Record>, paths: set<Path>)
    requires AllAbove(root, false, rs)
    ensures AllAbove(root, false, Without(rs, paths))
  {
    if rs != [] { WithoutBelow(root, rs[1..], paths); }
  }

  lemma {:induction false} WithoutAll(rs: seq<Record>, paths: set<Path>)
    requires forall i | 0 <= i < |rs| :: rs[i].path in paths
    ensures Without(rs, paths) == []
  {
    if rs != [] { WithoutAll(rs[1..], paths); }
  }

  lemma {:induction false} BelowDepth(fs: Files, current: Path, parts: seq<string>)
    ensures forall i | 0 <= i < |Below(fs, current, parts)| :: |Below(fs, current, parts)[i]| > |current|
    decreases |parts|
  {
    if parts != [] { BelowDepth(fs, current + [parts[0]], parts[1..]); }
  }

  lemma {:induction false} ChainBelow(fs: Files, root: Path, dirs: seq<Path>, paths: set<Path>)
    requires forall i | 0 <= i < |dirs| :: |dirs[i]| > |root|
    ensures AllAbove(root, false, Chain(fs, dirs, paths))
  {
    if dirs != [] {
      MatchesDepth(fs, dirs[0], NAMES);
      WithoutBelow(root, Matches(fs, dirs[0], NAMES), paths);
      ChainBelow(fs, root, dirs[1..], paths);
    }
  }

  // The root directory itself adds nothing to the chain: if it has instruction
  // files, they are the root context.
  lemma RootAddsNothing(fs: Files, root: Path, home: Path)
    ensures Without(Matches(fs, root, NAMES), PathsOf(RootRecords(fs, root, home))) == []
  {
    WithoutAll(Matches(fs, root, NAMES), PathsOf(Matches(fs, root, NAMES)));
  }

  lemma ChainIsBelow(fs: Files, root: Path, home: Path, target: Path)
    requires root <= target
    ensures AllAbove(root, false, ChainRecords(fs, root, home, target))
  {
    var below := Below(fs, root, target[|root|..]);
    var paths := PathsOf(RootRecords(fs, root, home));
    assert ([root] + below)[1..] == below;
    RootAddsNothing(fs, root, home);
    BelowDepth(fs, root, target[|root|..]);
    ChainBelow(fs, root, below, paths);
  }

  // The text is a function of the recorded pairs: whatever the files were, two
  // calls with the same records have the same answer.
  lemma RecordsDetermineText(fs: Files, root: Path, home: Path, target: Path)
    requires root <= target
    ensures Uncached(fs, root, home, target) ==
            TextOf(root, RootRecords(fs, root, home) + ChainRecords(fs, root, home, target))
  {
    RootContextAbove(fs, root, root, home);
    ChainIsBelow(fs, root, home, target);
    PickSplits(root, RootRecords(fs, root, home), ChainRecords(fs, root, home, target));
  }

  // --- The loader ---------------------------------------------------------

  // SHA-256 is taken to be injective: a key is what was hashed.
  datatype Key = Key(target: Path, records: seq<Record>)

  type Entries = seq<(Key, string)>

  ghost predicate Distinct(es: Entries) {
    forall i, j | 0 <= i < j < |es| :: es[i].0 != es[j].0
  }

  // Every cached text is the one its key stands for.
  ghost predicate Sound(root: Path, es: Entries) {
    forall i | 0 <= i < |es| :: es[i].1 == TextOf(root, es[i].0.records)
  }

  // The entries of other keys, in order.
  function WithoutKey(es: Entries, key: Key): Entries {
    if es == [] then []
    else (if es[0].0 == key then [] else [es[0]]) + WithoutKey(es[1..], key)
  }

  // The most recently used ones that leave room for one more.
  function Newest(es: Entries): Entries {
    if |es| < CAPACITY then es else es[|es| - (CAPACITY - 1)..]
  }

  lemma {:induction false} WithoutNone(es: Entries, key: Key)
    requires forall i | 0 <= i < |es| :: es[i].0 != key
    ensures WithoutKey(es, key) == es
  {
    if es != [] { WithoutNone(es[1..], key); }
  }

  lemma {:induction false} WithoutAt(es: Entries, key: Key, n: nat)
    requires Distinct(es) && n < |es| && es[n].0 == key
    ensures WithoutKey(es, key) == es[..n] + es[n + 1..]
  {
    if n == 0 {
      WithoutNone(es[1..], key);
    } else {
      WithoutAt(es[1..], key, n - 1);
      assert es[1..][..n - 1] == es[1..n] && es[1..][n..] == es[n + 1..];
      assert es[..n] == [es[0]] + es[1..n];
    }
  }

  lemma LastOnes(es: Entries, e: (Key, string), n: nat)
    requires |es| <= CAPACITY && n == (if |es| < CAPACITY then |es| + 1 else CAPACITY)
    ensures (es + [e])[|es| + 1 - n..] == Newest(es) + [e]
  {
  }

  class ProjectContextLoader {
    const root: Path
    const home: Path
    // The cache, least recently used entry first.
    var entries: Entries

    ghost predicate Valid()
      reads this
    {
      Distinct(entries) && Sound(root, entries) && |entries| <= CAPACITY
    }

    constructor (root: Path, home: Path)
      ensures Valid() && this.root == root && this.home == home && entries == []
    {
      this.root, this.home := root, home;
      entries := [];
    }

    method Directories(fs: Files, target: Path) returns (dirs: seq<Path>)
      requires root <= target
      ensures dirs == [root] + Below(fs, root, target[|root|..])
    {
      var parts := target[|root|..];
      dirs := [root];
      var current, n := root, 0;
      while n < |parts|
        invariant 0 <= n <= |parts|
        invariant dirs + Below(fs, current, parts[n..]) == [root] + Below(fs, root, parts)
      {
        assert parts[n..][0] == parts[n] && parts[n..][1..] == parts[n + 1..];
        current := current + [parts[n]];
        if current in fs.files {
          return;
        }
        dirs := dirs + [current];
        n := n + 1;
      }
    }

    // Walk up to the nearest directory that has instruction files.
    method FindRootContextFiles(fs: Files) returns (found: seq<Record>)
      ensures found == RootContext(fs, root, home)
    {
      var current := root;
      found := Matches(fs, current, NAMES);
      while found == [] && current != home && current != []
        invariant found == Matches(fs, current, NAMES)
        invariant RootContext(fs, current, home) == RootContext(fs, root, home)
        decreases |current|
      {
        current := current[..|current| - 1];
        found := Matches(fs, current, NAMES);
      }
    }

    // The instruction files of one directory that are not root context.
    method Find(fs: Files, dir: Path, rootPaths: set<Path>) returns (found: seq<Record>)
      ensures found == FoundIn(fs, dir, rootPaths)
    {
      found := [];
      for n := 0 to |NAMES|
        invariant found == Without(Matches(fs, dir, NAMES[..n]), rootPaths)
      {
        FoundOneMore(fs, dir, NAMES, n, rootPaths);
        var candidate := dir + [NAMES[n]];
        if candidate in fs.readable && candidate !in rootPaths {
          found := found + [Record(candidate, fs.readable[candidate])];
        }
      }
      assert NAMES[..|NAMES|] == NAMES;
    }

    // Record what was found and keep the texts not there yet.
    method Add(found: seq<Record>, had: seq<Record>, texts: seq<string>)
      returns (records: seq<Record>, parts: seq<string>)
      ensures records == had + found && parts == AddNew(texts, found)
    {
      records, parts := had, texts;
      for n := 0 to |found|
        invariant records == had + found[..n] && parts == AddNew(texts, found[..n])
      {
        assert found[..n + 1] == found[..n] + [found[n]];
        AddNewAppend(texts, found[..n], [found[n]]);
        records := records + [found[n]];
        if found[n].content !in parts {
          parts := parts + [found[n].content];
        }
      }
      assert found[..|found|] == found;
    }

    // One directory further down the chain.
    method CollectOne(fs: Files, dir: Path, rootPaths: set<Path>, records: seq<Record>, parts: seq<string>)
      returns (records': seq<Record>, parts': seq<string>)
      ensures records' == records + FoundIn(fs, dir, rootPaths) && parts' == AddNew(parts, FoundIn(fs, dir, rootPaths))
    {
      var found := Find(fs, dir, rootPaths);
      records', parts' := Add(found, records, parts);
    }

    // Go down the chain of directories.
    method Collect(fs: Files, dirs: seq<Path>, rootRecords: seq<Record>)
      returns (records: seq<Record>, parts: seq<string>)
      ensures records == rootRecords + Chain(fs, dirs, PathsOf(rootRecords))
      ensures parts == AddNew(Contents(rootRecords), Chain(fs, dirs, PathsOf(rootRecords)))
    {
      var rootPaths := PathsOf(rootRecords);
      records, parts := rootRecords, Contents(rootRecords);
      for d := 0 to |dirs|
        invariant Collected(fs, dirs[..d], rootRecords, rootPaths, records, parts)
      {
        ghost var had, texts := records, parts;
        records, parts := CollectOne(fs, dirs[d], rootPaths, records, parts);
        CollectedMore(fs, dirs, d, rootRecords, rootPaths, had, texts);
      }
      assert dirs[..|dirs|] == dirs;
    }

    method Lookup(key: Key) returns (at: Option<nat>)
      ensures at.Some? ==> at.value < |entries| && entries[at.value].0 == key
      ensures at == None ==> forall i | 0 <= i < |entries| :: entries[i].0 != key
    {
      for i := 0 to |entries|
        invariant forall j | 0 <= j < i :: entries[j].0 != key
      {
        if entries[i].0 == key {
          return Some(i);
        }
      }
      at := None;
    }

    // `target` is the checked target, if the path does not escape the project.
    method Resolve(fs: Files, rootIsDir: bool, target: Option<Path>) returns (text: string)
      requires Valid()
      requires target.Some? ==> root <= target.value
      modifies this
      ensures Valid()
      ensures text == if rootIsDir && target.Some? then Uncached(fs, root, home, target.value) else ""
      ensures rootIsDir && target.Some? ==>
        var key := Key(target.value, RootRecords(fs, root, home) + ChainRecords(fs, root, home, target.value));
        entries == Newest(WithoutKey(old(entries), key)) + [(key, text)]
      ensures !rootIsDir || target == None ==> entries == old(entries)
      ensures |entries| <= 128
    {
      if !rootIsDir || target == None {
        return "";
      }
      var rootRecords := FindRootContextFiles(fs);
      var dirs := Directories(fs, target.value);
      var records, parts := Collect(fs, dirs, rootRecords);
      RecordsDetermineText(fs, root, home, target.value);
      text := Remember(Key(target.value, records), Join(parts));
    }

    // The cached text if there is one, else the new one; either becomes the
    // most recently used entry, and the oldest entries make room.
    method Remember(key: Key, computed: string) returns (text: string)
      requires Valid() && computed == TextOf(root, key.records)
      modifies this
      ensures Valid() && text == computed
      ensures entries == Newest(WithoutKey(old(entries), key)) + [(key, computed)]
    {
      var at := Lookup(key);
      if at.Some? {
        text := entries[at.value].1;
        MoveToEnd(at.value, key);
      } else {
        text := computed;
        WithoutNone(entries, key);
        Admit(key, text);
      }
    }

    method MoveToEnd(n: nat, key: Key)
      requires Valid() && n < |entries| && entries[n].0 == key
      modifies this
      ensures Valid()
      ensures entries == Newest(WithoutKey(old(entries), key)) + [old(entries)[n]]
    {
      WithoutAt(entries, key, n);
      Moved(root, entries, n);
      entries := entries[..n] + entries[n + 1..] + [entries[n]];
    }

    // Add an entry, then drop the oldest while there are too many.
    method Admit(key: Key, text: string)
      requires Valid() && text == TextOf(root, key.records)
      requires forall i | 0 <= i < |entries| :: entries[i].0 != key
      modifies this
      ensures Valid() && entries == Newest(old(entries)) + [(key, text)]
      ensures |entries| == (if |old(entries)| < 128 then |old(entries)| + 1 else 128)
    {
      ghost var all := entries + [(key, text)];
      Added(root, entries, key, text);
      entries := entries + [(key, text)];
      while |entries| > CAPACITY
        invariant Distinct(entries) && Sound(root, entries)
        invariant |entries| <= |all| && entries == all[|all| - |entries|..]
        invariant entries == all || |entries| == CAPACITY
      {
        entries := entries[1..];
      }
      LastOnes(old(entries), (key, text), |entries|);
    }
  }

  lemma Moved(root: Path, es: Entries, n: nat)
    requires Distinct(es) && Sound(root, es) && n < |es|
    ensures var moved := es[..n] + es[n + 1..] + [es[n]]; |moved| == |es| && Distinct(moved) && Sound(root, moved)
  {
    var moved := es[..n] + es[n + 1..] + [es[n]];
    forall i | 0 <= i < |moved| ensures moved[i] == es[Source(es, n, i)] {}
    forall i, j | 0 <= i < j < |moved| ensures moved[i].0 != moved[j].0 {
      assert moved[i] == es[Source(es, n, i)] && moved[j] == es[Source(es, n, j)];
      assert Source(es, n, i) != Source(es, n, j);
    }
    forall i | 0 <= i < |moved| ensures moved[i].1 == TextOf(root, moved[i].0.records) {
      assert moved[i] == es[Source(es, n, i)];
    }
  }

  // Where entry `i` was before entry `n` moved to the end.
  function Source(es: Entries, n: nat, i: nat): nat {
    if i < n then i else if i + 1 == |es| then n else i + 1
  }

  lemma Added(root: Path, es: Entries, key: Key, text: string)
    requires Distinct(es) && Sound(root, es) && text == TextOf(root, key.records)
    requires forall i | 0 <= i < |es| :: es[i].0 != key
    ensures Distinct(es + [(key, text)]) && Sound(root, es + [(key, text)])
  {
  }

  lemma {:induction false} MatchesAppend(fs: Files, dir: Path, a: seq<string>, b: seq<string>)
    ensures Matches(fs, dir, a + b) == Matches(fs, dir, a) + Matches(fs, dir, b)
  {
    if a == [] {
      assert a + b == b;
    } else {
      assert (a + b)[1..] == a[1..] + b;
      MatchesAppend(fs, dir, a[1..], b);
    }
  }

  lemma {:induction false} WithoutAppend(a: seq<Record>, b: seq<Record>, paths: set<Path>)
    ensures Without(a + b, paths) == Without(a, paths) + Without(b, paths)
  {
    if a == [] {
      assert a + b == b;
    } else {
      assert (a + b)[1..] == a[1..] + b;
      WithoutAppend(a[1..], b, paths);
    }
  }

  lemma FoundOneMore(fs: Files, dir: Path, names: seq<string>, n: nat, paths: set<Path>)
    requires n < |names|
    ensures var candidate := dir + [names[n]];
      Without(Matches(fs, dir, names[..n + 1]), paths) == Without(Matches(fs, dir, names[..n]), paths)
        + if candidate in fs.readable && candidate !in paths then [Record(candidate, fs.readable[candidate])] else []
  {
    assert names[..n + 1] == names[..n] + [names[n]];
    MatchesAppend(fs, dir, names[..n], [names[n]]);
    WithoutAppend(Matches(fs, dir, names[..n]), Matches(fs, dir, [names[n]]), paths);
    assert [names[n]][1..] == [];
  }

  // What is collected from some directories of the chain.
  ghost predicate Collected(fs: Files, dirs: seq<Path>, rootRecords: seq<Record>, rootPaths: set<Path>,
                            records: seq<Record>, parts: seq<string>) {
    && records == rootRecords + Chain(fs, dirs, rootPaths)
    && parts == AddNew(Contents(rootRecords), Chain(fs, dirs, rootPaths))
  }

  lemma CollectedMore(fs: Files, dirs: seq<Path>, d: nat, rootRecords: seq<Record>, rootPaths: set<Path>,
                      records: seq<Record>, parts: seq<string>)
    requires d < |dirs| && Collected(fs, dirs[..d], rootRecords, rootPaths, records, parts)
    ensures var found := FoundIn(fs, dirs[d], rootPaths);
      Collected(fs, dirs[..d + 1], rootRecords, rootPaths, records + found, AddNew(parts, found))
  {
    var chain, found := Chain(fs, dirs[..d], rootPaths), FoundIn(fs, dirs[d], rootPaths);
    ChainOneMore(fs, dirs, d, rootPaths);
    MoreFound(rootRecords, chain, found);
  }

  lemma MoreFound(rootRecords: seq<Record>, chain: seq<Record>, found: seq<Record>)
    ensures rootRecords + chain + found == rootRecords + (chain + found)
    ensures AddNew(AddNew(Contents(rootRecords), chain), found) == AddNew(Contents(rootRecords), chain + found)
  {
    Associative(rootRecords, chain, found);
    AddNewAppend(Contents(rootRecords), chain, found);
  }

  lemma {:induction false} ChainAppend(fs: Files, a: seq<Path>, b: seq<Path>, paths: set<Path>)
    ensures Chain(fs, a + b, paths) == Chain(fs, a, paths) + Chain(fs, b, paths)
  {
    if a == [] {
      assert a + b == b;
    } else {
      assert (a + b)[1..] == a[1..] + b;
      ChainAppend(fs, a[1..], b, paths);
    }
  }

  lemma ChainOneMore(fs: Files, dirs: seq<Path>, d: nat, paths: set<Path>)
    requires d < |dirs|
    ensures Chain(fs, dirs[..d + 1], paths) == Chain(fs, dirs[..d], paths) + FoundIn(fs, dirs[d], paths)
  {
    assert dirs[..d + 1] == dirs[..d] + [dirs[d]];
    ChainAppend(fs, dirs[..d], [dirs[d]], paths);
    assert [dirs[d]][1..] == [];
    assert Chain(fs, [dirs[d]], paths) == FoundIn(fs, dirs[d], paths) + Chain(fs, [], paths);
  }

  lemma {:induction false} AddNewAppend(parts: seq<string>, a: seq<Record>, b: seq<Record>)
    ensures AddNew(parts, a + b) == AddNew(AddNew(parts, a), b)
    decreases |a|
  {
    if a == [] {
      assert a + b == b;
    } else {
      assert (a + b)[1..] == a[1..] + b;
      AddNewAppend(if a[0].content in parts then parts else parts + [a[0].content], a[1..], b);
    }
  }

}
