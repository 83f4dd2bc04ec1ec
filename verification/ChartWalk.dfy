// The walk of a pulled chart for the crds directories helm would not upgrade.
module ChartWalk {
  import opened Wrappers

  // A directory's entries are in the order a walk visits them. Reading the
  // entries of a directory may fail.
  datatype Entry = File(name: string) | Dir(name: string, readable: bool, entries: seq<Entry>)

  type Path = seq<string>

  const CRDS := "crds"
  const TEMPLATES := "templates"

  datatype Verdict = Continue | SkipDir | Abort

  // The walk callback and the directories it has collected.
  class Collector {
    var dirs: seq<Path>

    constructor ()
      ensures dirs == []
    {
      dirs := [];
    }

    method Visit(path: Path, isDir: bool, name: string, failed: bool) returns (verdict: Verdict)
      modifies this
      ensures failed ==> verdict == Abort && dirs == old(dirs)
      ensures !failed ==> verdict == (if isDir && (name == TEMPLATES || name == CRDS) then SkipDir else Continue)
      ensures !failed ==> dirs == if isDir && name == CRDS then old(dirs) + [path] else old(dirs)
    {
      if failed {
        return Abort;
      }
      if !isDir {
        return Continue;
      }
      if name == TEMPLATES {
        return SkipDir;
      }
      if name == CRDS {
        dirs := dirs + [path];
        return SkipDir;
      }
      return Continue;
    }
  }

  // ---- What the pruned walk collects ----

  predicate Prunes(name: string) {
    name == TEMPLATES || name == CRDS
  }

  // The collected directories, or None when a directory that is read cannot be.
  function Collected(parent: Path, entry: Entry): Option<seq<Path>>
    decreases entry
  {
    match entry
    case File(_) => Some([])
    case Dir(name, readable, entries) =>
      if name == TEMPLATES then Some([])
      else if name == CRDS then Some([parent + [name]])
      else if !readable then None
      else CollectedAll(parent + [name], entries)
  }

  function CollectedAll(parent: Path, entries: seq<Entry>): Option<seq<Path>>
    decreases entries
  {
    if entries == [] then Some([])
    else
      var first := Collected(parent, entries[0]);
      var rest := CollectedAll(parent, entries[1..]);
      if first.None? || rest.None? then None else Some(first.value + rest.value)
  }

  // filepath.WalkDir with the collector as its callback.
  method WalkDir(parent: Path, entry: Entry, collector: Collector) returns (ok: bool)
    modifies collector
    ensures ok == Collected(parent, entry).Some?
    ensures ok ==> collector.dirs == old(collector.dirs) + Collected(parent, entry).value
    decreases entry, 1
  {
    var path := parent + [entry.name];
    var verdict := collector.Visit(path, entry.Dir?, entry.name, false);
    if entry.File? || verdict.SkipDir? {
      return true;
    }
    if !entry.readable {
      verdict := collector.Visit(path, true, entry.name, true);
      return false;
    }
    ok := WalkEntries(path, entry.entries, collector);
  }

  method WalkEntries(parent: Path, entries: seq<Entry>, collector: Collector) returns (ok: bool)
    modifies collector
    ensures ok == CollectedAll(parent, entries).Some?
    ensures ok ==> collector.dirs == old(collector.dirs) + CollectedAll(parent, entries).value
    decreases entries, 0
  {
    if entries == [] {
      return true;
    }
    ok := WalkDir(parent, entries[0], collector);
    if ok {
      ok := WalkEntries(parent, entries[1..], collector);
    }
  }

  method FindCRDDirs(parent: Path, root: Entry) returns (dirs: Option<seq<Path>>)
    ensures dirs == Collected(parent, root)
  {
    var collector := new Collector();
    var ok := WalkDir(parent, root, collector);
    if !ok {
      return None;
    }
    assert collector.dirs == Collected(parent, root).value;
    return Some(collector.dirs);
  }

  // ---- The simple form: every directory, filtered by its path ----

  // All directories in the order of an unpruned walk, as paths from the root
  // inclusive, with whether they can be read.
  function Directories(parent: Path, entry: Entry): seq<(Path, bool)>
    decreases entry
  {
    match entry
    case File(_) => []
    case Dir(name, readable, entries) => [(parent + [name], readable)] + DirectoriesAll(parent + [name], entries)
  }

  function DirectoriesAll(parent: Path, entries: seq<Entry>): seq<(Path, bool)>
    decreases entries
  {
    if entries == [] then [] else Directories(parent, entries[0]) + DirectoriesAll(parent, entries[1..])
  }

  // From position depth on, no component prunes.
  predicate Clear(path: Path, depth: nat) {
    forall i :: depth <= i < |path| ==> !Prunes(path[i])
  }

  // A crds directory with no crds or templates above it within the walk; the
  // walk starts at depth components.
  predicate Wanted(path: Path, depth: nat) {
    depth < |path| && path[|path| - 1] == CRDS && Clear(path[..|path| - 1], depth)
  }

  function Filtered(dirs: seq<(Path, bool)>, depth: nat): seq<Path> {
    if dirs == [] then []
    else (if Wanted(dirs[0].0, depth) then [dirs[0].0] else []) + Filtered(dirs[1..], depth)
  }

  // A directory the walk reads but cannot.
  ghost predicate Blocked(dirs: seq<(Path, bool)>, depth: nat) {
    exists i :: 0 <= i < |dirs| && !dirs[i].1 && Clear(dirs[i].0, depth)
  }

  lemma {:induction false} FilteredAppend(a: seq<(Path, bool)>, b: seq<(Path, bool)>, depth: nat)
    ensures Filtered(a + b, depth) == Filtered(a, depth) + Filtered(b, depth)
    ensures Blocked(a + b, depth) <==> Blocked(a, depth) || Blocked(b, depth)
  {
    if a == [] {
      assert a + b == b;
    } else {
      assert (a + b)[1..] == a[1..] + b;
      FilteredAppend(a[1..], b, depth);
      BlockedCons(a, depth);
      BlockedCons(a + b, depth);
    }
  }

  lemma BlockedCons(dirs: seq<(Path, bool)>, depth: nat)
    requires dirs != []
    ensures Blocked(dirs, depth) <==> (!dirs[0].1 && Clear(dirs[0].0, depth)) || Blocked(dirs[1..], depth)
  {
    var rest := dirs[1..];
    if i :| 0 <= i < |dirs| && !dirs[i].1 && Clear(dirs[i].0, depth) {
      if i > 0 {
        assert rest[i - 1] == dirs[i];
      }
    }
    if j :| 0 <= j < |rest| && !rest[j].1 && Clear(rest[j].0, depth) {
      assert dirs[j + 1] == rest[j];
    }
  }

  // Every directory found below a path extends it.
  lemma {:induction false} BelowParent(parent: Path, entry: Entry)
    ensures forall i :: 0 <= i < |Directories(parent, entry)| ==>
              |parent| < |Directories(parent, entry)[i].0| && parent + [entry.name] <= Directories(parent, entry)[i].0
    decreases entry
  {
    match entry
    case File(_) =>
    case Dir(name, readable, entries) => BelowParentAll(parent + [name], entries);
  }

  lemma {:induction false} BelowParentAll(parent: Path, entries: seq<Entry>)
    ensures forall i :: 0 <= i < |DirectoriesAll(parent, entries)| ==>
              |parent| < |DirectoriesAll(parent, entries)[i].0| && parent <= DirectoriesAll(parent, entries)[i].0
    decreases entries
  {
    if entries != [] {
      BelowParent(parent, entries[0]);
      BelowParentAll(parent, entries[1..]);
      forall i | 0 <= i < |Directories(parent, entries[0])| ensures parent <= Directories(parent, entries[0])[i].0 {
        assert parent <= parent + [entries[0].name];
      }
    }
  }

  // Below a component that prunes, nothing is wanted and nothing blocks.
  lemma {:induction false} NothingBelow(dirs: seq<(Path, bool)>, depth: nat, pruned: Path)
    requires depth < |pruned| && Prunes(pruned[|pruned| - 1])
    requires forall i :: 0 <= i < |dirs| ==> |pruned| < |dirs[i].0| && pruned <= dirs[i].0
    ensures Filtered(dirs, depth) == [] && !Blocked(dirs, depth)
  {
    forall i | 0 <= i < |dirs| ensures !Clear(dirs[i].0, depth) {
      assert dirs[i].0[|pruned| - 1] == pruned[|pruned| - 1];
    }
    if dirs != [] {
      assert dirs[0].0[..|dirs[0].0| - 1][|pruned| - 1] == pruned[|pruned| - 1];
      NothingBelow(dirs[1..], depth, pruned);
    }
  }

  // The pruned walk collects exactly the wanted directories of the unpruned
  // one, in its order, and fails exactly when a directory it reads cannot be.
  lemma {:induction false} WalkIsFilter(parent: Path, entry: Entry, depth: nat)
    requires depth <= |parent| && Clear(parent, depth)
    ensures Collected(parent, entry) ==
            if Blocked(Directories(parent, entry), depth) then None
                else Some(Filtered(Directories(parent, entry), depth))
    decreases entry
  {
    match entry
    case File(_) =>
    case Dir(name, readable, entries) =>
      var path := parent + [name];
      var below := DirectoriesAll(path, entries);
      var all := Directories(parent, entry);
      assert all == [(path, readable)] + below && all[1..] == below;
      BlockedCons(all, depth);
      assert path[..|path| - 1] == parent;
      assert path[|parent|] == name && forall i :: 0 <= i < |parent| ==> path[i] == parent[i];
      assert Clear(path, depth) <==> !Prunes(name);
      assert Filtered(all, depth) == (if Wanted(path, depth) then [path] else []) + Filtered(below, depth);
      assert Wanted(path, depth) <==> name == CRDS;
      if Prunes(name) {
        BelowParentAll(path, entries);
        NothingBelow(below, depth, path);
        assert name == CRDS ==> [path] + Filtered(below, depth) == [path];
      } else {
        WalkIsFilterAll(path, entries, depth);
        assert [] + Filtered(below, depth) == Filtered(below, depth);
      }
  }

  lemma {:induction false} WalkIsFilterAll(parent: Path, entries: seq<Entry>, depth: nat)
    requires depth <= |parent| && Clear(parent, depth)
    ensures CollectedAll(parent, entries) ==
            if Blocked(DirectoriesAll(parent, entries), depth) then None
                else Some(Filtered(DirectoriesAll(parent, entries), depth))
    decreases entries
  {
    if entries != [] {
      WalkIsFilter(parent, entries[0], depth);
      WalkIsFilterAll(parent, entries[1..], depth);
      FilteredAppend(Directories(parent, entries[0]), DirectoriesAll(parent, entries[1..]), depth);
    }
  }

  // ---- What the result is ----

  // A path leads to a directory of the tree.
  ghost predicate IsDirectory(parent: Path, entry: Entry, path: Path)
    decreases entry
  {
    entry.Dir? && (
      path == parent + [entry.name] ||
      exists i :: 0 <= i < |entry.entries| && IsDirectory(parent + [entry.name], entry.entries[i], path))
  }

  ghost predicate IsDirectoryIn(parent: Path, entries: seq<Entry>, path: Path) {
    exists i :: 0 <= i < |entries| && IsDirectory(parent, entries[i], path)
  }

  ghost predicate Lists(dirs: seq<(Path, bool)>, path: Path) {
    exists i :: 0 <= i < |dirs| && dirs[i].0 == path
  }

  lemma ListsAppend(a: seq<(Path, bool)>, b: seq<(Path, bool)>, path: Path)
    ensures Lists(a + b, path) <==> Lists(a, path) || Lists(b, path)
  {
    if i :| 0 <= i < |a| && a[i].0 == path {
      assert (a + b)[i] == a[i];
    }
    if j :| 0 <= j < |b| && b[j].0 == path {
      assert (a + b)[|a| + j] == b[j];
    }
  }

  lemma IsDirectoryInCons(parent: Path, entries: seq<Entry>, path: Path)
    requires entries != []
    ensures IsDirectoryIn(parent, entries, path) <==>
            IsDirectory(parent, entries[0], path) || IsDirectoryIn(parent, entries[1..], path)
  {
    if i :| 0 <= i < |entries| && IsDirectory(parent, entries[i], path) {
      assert i > 0 ==> entries[1..][i - 1] == entries[i];
    }
    if j :| 0 <= j < |entries| - 1 && IsDirectory(parent, entries[1..][j], path) {
      assert entries[j + 1] == entries[1..][j];
    }
  }

  // The unpruned walk lists every directory of the tree and nothing else.
  lemma {:induction false} DirectoriesAreAll(parent: Path, entry: Entry, path: Path)
    ensures Lists(Directories(parent, entry), path) <==> IsDirectory(parent, entry, path)
    decreases entry
  {
    if entry.Dir? {
      var here := parent + [entry.name];
      DirectoriesOfAll(here, entry.entries, path);
      ListsAppend([(here, entry.readable)], DirectoriesAll(here, entry.entries), path);
      assert [(here, entry.readable)][0].0 == here;
    }
  }

  lemma {:induction false} DirectoriesOfAll(parent: Path, entries: seq<Entry>, path: Path)
    ensures Lists(DirectoriesAll(parent, entries), path) <==> IsDirectoryIn(parent, entries, path)
    decreases entries
  {
    if entries != [] {
      DirectoriesAreAll(parent, entries[0], path);
      DirectoriesOfAll(parent, entries[1..], path);
      ListsAppend(Directories(parent, entries[0]), DirectoriesAll(parent, entries[1..]), path);
      IsDirectoryInCons(parent, entries, path);
    }
  }

  lemma {:induction false} FilteredExactly(dirs: seq<(Path, bool)>, depth: nat, path: Path)
    ensures path in Filtered(dirs, depth) <==> Lists(dirs, path) && Wanted(path, depth)
  {
    if dirs != [] {
      FilteredExactly(dirs[1..], depth, path);
      assert dirs == [dirs[0]] + dirs[1..];
      ListsAppend([dirs[0]], dirs[1..], path);
      assert [dirs[0]][0] == dirs[0];
    }
  }

  // What findCRDDirs returns when it succeeds: exactly the crds directories of
  // the tree with no crds or templates above them within the walk.
  lemma FoundExactly(parent: Path, root: Entry, path: Path)
    requires Collected(parent, root).Some?
    ensures path in Collected(parent, root).value <==> IsDirectory(parent, root, path) && Wanted(path, |parent|)
  {
    WalkIsFilter(parent, root, |parent|);
    FilteredExactly(Directories(parent, root), |parent|, path);
    DirectoriesAreAll(parent, root, path);
  }

  // It fails exactly when a directory that is not below, and is not, a crds or
  // templates directory cannot be read.
  lemma FailsExactly(parent: Path, root: Entry)
    ensures Collected(parent, root).None? <==> Blocked(Directories(parent, root), |parent|)
  {
    WalkIsFilter(parent, root, |parent|);
  }

  // No directory found is inside another one.
  lemma NoneInsideAnother(parent: Path, root: Entry, outer: Path, inner: Path)
    requires Collected(parent, root).Some?
    requires outer in Collected(parent, root).value && outer < inner
    ensures inner !in Collected(parent, root).value
  {
    FoundExactly(parent, root, outer);
    FoundExactly(parent, root, inner);
    assert inner[..|inner| - 1][|outer| - 1] == outer[|outer| - 1];
  }

  // ---- No duplicates ----

  // Entries of one directory have different names.
  ghost predicate NamesDiffer(entry: Entry)
    decreases entry
  {
    entry.Dir? ==>
      && (forall i, j :: 0 <= i < j < |entry.entries| ==> entry.entries[i].name != entry.entries[j].name)
      && (forall i :: 0 <= i < |entry.entries| ==> NamesDiffer(entry.entries[i]))
  }

  ghost predicate Distinct(dirs: seq<(Path, bool)>) {
    forall i, j :: 0 <= i < j < |dirs| ==> dirs[i].0 != dirs[j].0
  }

  lemma {:induction false} DirectoriesDistinct(parent: Path, entry: Entry)
    requires NamesDiffer(entry)
    ensures Distinct(Directories(parent, entry))
    decreases entry
  {
    if entry.Dir? {
      var here := parent + [entry.name];
      DirectoriesDistinctAll(here, entry.entries);
      BelowParentAll(here, entry.entries);
    }
  }

  lemma {:induction false} DirectoriesDistinctAll(parent: Path, entries: seq<Entry>)
    requires forall i :: 0 <= i < |entries| ==> NamesDiffer(entries[i])
    requires forall i, j :: 0 <= i < j < |entries| ==> entries[i].name != entries[j].name
    ensures Distinct(DirectoriesAll(parent, entries))
    decreases entries
  {
    if entries != [] {
      DirectoriesDistinct(parent, entries[0]);
      DirectoriesDistinctAll(parent, entries[1..]);
      var first, rest := Directories(parent, entries[0]), DirectoriesAll(parent, entries[1..]);
      BelowParent(parent, entries[0]);
      forall i, j | 0 <= i < |first| && 0 <= j < |rest| ensures first[i].0 != rest[j].0 {
        NextComponent(parent, entries[1..], j);
        assert first[i].0[|parent|] == entries[0].name;
      }
    }
  }

  // The component after the parent is the name of one of the entries.
  lemma {:induction false} NextComponent(parent: Path, entries: seq<Entry>, j: nat)
    requires j < |DirectoriesAll(parent, entries)|
    ensures var path := DirectoriesAll(parent, entries)[j].0;
            |parent| < |path| && exists k :: 0 <= k < |entries| && entries[k].name == path[|parent|]
    decreases entries
  {
    var first := Directories(parent, entries[0]);
    if j < |first| {
      BelowParent(parent, entries[0]);
      assert first[j].0[|parent|] == entries[0].name;
    } else {
      NextComponent(parent, entries[1..], j - |first|);
      var path := DirectoriesAll(parent, entries)[j].0;
      var k :| 0 <= k < |entries| - 1 && entries[1..][k].name == path[|parent|];
      assert entries[k + 1] == entries[1..][k];
    }
  }

  // Every directory is found once.
  lemma FoundOnce(parent: Path, root: Entry)
    requires Collected(parent, root).Some? && NamesDiffer(root)
    ensures var found := Collected(parent, root).value;
            forall i, j :: 0 <= i < j < |found| ==> found[i] != found[j]
  {
    WalkIsFilter(parent, root, |parent|);
    DirectoriesDistinct(parent, root);
    FilteredDistinct(Directories(parent, root), |parent|);
  }

  lemma {:induction false} FilteredDistinct(dirs: seq<(Path, bool)>, depth: nat)
    requires Distinct(dirs)
    ensures forall i, j :: 0 <= i < j < |Filtered(dirs, depth)| ==> Filtered(dirs, depth)[i] != Filtered(dirs, depth)[j]
  {
    if dirs != [] {
      var rest := Filtered(dirs[1..], depth);
      FilteredDistinct(dirs[1..], depth);
      forall j | 0 <= j < |rest| ensures rest[j] != dirs[0].0 {
        FilteredExactly(dirs[1..], depth, rest[j]);
        var k :| 0 <= k < |dirs[1..]| && dirs[1..][k].0 == rest[j];
        assert dirs[k + 1] == dirs[1..][k];
      }
    }
  }
}
