/**
 * Committing a plan of file mutations: new directories are made, new contents staged in temporary files,
 * and the mutations applied one by one; any failure undoes all of it.
 */
module Commit {

  // ---------------------------------------------------------------------------
  // Paths and file systems
  // ---------------------------------------------------------------------------

  type Path = string

  datatype Option<T> = None | Some(value: T)

  /** Permission bits, and the set-user-ID, set-group-ID and sticky bits beside them. */
  datatype Mode = Mode(perm: nat, special: nat)

  datatype Node = Directory | Regular(data: string, mode: Mode) | Symlink(target: string)

  type Nodes = map<Path, Node>

  function Get(nodes: Nodes, p: Path): Option<Node> { if p in nodes then Some(nodes[p]) else None }

  /** The path up to its last separator; the root is the empty path. */
  function Parent(p: Path): Path {
    if p == "" then "" else if p[|p| - 1] == '/' then p[..|p| - 1] else Parent(p[..|p| - 1])
  }

  function Depth(p: Path): nat { if p == "" then 0 else Depth(p[..|p| - 1]) + if p[|p| - 1] == '/' then 1 else 0 }

  predicate IsDirectory(nodes: Nodes, p: Path) { p in nodes && nodes[p].Directory? }

  /** The root is a directory, and everything else lies in one. */
  ghost predicate WellFormed(nodes: Nodes) { forall p | p == "" || p in nodes :: IsDirectory(nodes, Parent(p)) }

  ghost predicate Empty(nodes: Nodes, d: Path) { forall p | p in nodes && p != d :: Parent(p) != d }

  lemma {:induction false} ChildIsDeeper(p: Path)
    requires Parent(p) != ""
    ensures Depth(p) == Depth(Parent(p)) + 1
  {
    if p[|p| - 1] != '/' {
      ChildIsDeeper(p[..|p| - 1]);
    }
  }

  /** Two file systems with the same content everywhere are the same. */
  lemma SameEverywhere(a: Nodes, b: Nodes)
    requires forall p :: Get(a, p) == Get(b, p)
    ensures a == b
  {
    forall p
      ensures p in a <==> p in b
      ensures p in a ==> a[p] == b[p]
    {
      assert Get(a, p) == Get(b, p);
    }
  }

  /** The operating system's calls; a fault makes a call fail without effect. */
  class FileSystem {
    var nodes: Nodes

    method Mkdir(p: Path, fault: bool) returns (ok: bool)
      modifies this
      ensures ok <==> !fault && p !in old(nodes) && IsDirectory(old(nodes), Parent(p))
      ensures nodes == if ok then old(nodes)[p := Directory] else old(nodes)
    {
      ok := !fault && p !in nodes && IsDirectory(nodes, Parent(p));
      if ok {
        nodes := nodes[p := Directory];
      }
    }

    /** Removes a file, a link or an empty directory; what is not there counts as removed. */
    method Remove(p: Path, fault: bool) returns (ok: bool)
      modifies this
      ensures ok <==> !fault && (IsDirectory(old(nodes), p) ==> Empty(old(nodes), p))
      ensures nodes == if ok then old(nodes) - {p} else old(nodes)
    {
      var empty := forall q | q in nodes :: q != p ==> Parent(q) != p;
      ok := !fault && (IsDirectory(nodes, p) ==> empty);
      if ok {
        nodes := nodes - {p};
      }
    }

    method Rename(from: Path, to: Path, fault: bool) returns (ok: bool)
      modifies this
      ensures ok <==> !fault && from in old(nodes) && !IsDirectory(old(nodes), from) && !IsDirectory(old(nodes), to) && IsDirectory(old(nodes), Parent(to))
      ensures nodes == if ok then (old(nodes) - {from})[to := old(nodes)[from]] else old(nodes)
    {
      ok := !fault && from in nodes && !IsDirectory(nodes, from) && !IsDirectory(nodes, to) && IsDirectory(nodes, Parent(to));
      if ok {
        nodes := (nodes - {from})[to := nodes[from]];
      }
    }

    method Link(p: Path, target: string)
      modifies this
      ensures nodes == old(nodes)[p := Symlink(target)]
    {
      nodes := nodes[p := Symlink(target)];
    }

    /** A temporary file in a directory, under the name the system picked, with contents and permission bits. */
    method StageFile(dir: Path, name: Path, data: string, mode: Mode, fault: bool) returns (ok: bool)
      requires name !in nodes
      modifies this
      ensures ok <==> !fault && IsDirectory(old(nodes), dir)
      ensures nodes == if ok then old(nodes)[name := Regular(data, Mode(mode.perm, 0))] else old(nodes)
    {
      if !IsDirectory(nodes, dir) {
        return false;
      }
      nodes := nodes[name := Regular("", Mode(384, 0))];
      if fault {
        nodes := nodes - {name};
        return false;
      }
      nodes := nodes[name := Regular(data, Mode(mode.perm, 0))];
      return true;
    }
  }

  // ---------------------------------------------------------------------------
  // Plans
  // ---------------------------------------------------------------------------

  datatype Content = Content(data: string, mode: Mode)

  datatype Mutation = Mutation(requested: Path, path: Path, before: Option<Node>, after: Option<Content>)

  datatype Plan = Plan(mutations: seq<Mutation>, directories: seq<Path>)

  /** Which call of a commit fails, or between which two its context is canceled. */
  datatype Fault =
    | NoFault
    | CanceledCheck(mutation: nat)
    | MkdirFault(directory: nat)
    | StageFault(mutation: nat)
    | CanceledApply(mutation: nat)
    | ApplyFault(mutation: nat)
    | Injected(mutation: nat)
    | SyncFault

  function AfterNode(m: Mutation): Option<Node> {
    match m.after
    case None => None
    case Some(content) => Some(Regular(content.data, Mode(content.mode.perm, 0)))
  }

  /** What undoing a mutation leaves: restoring a file stages it again with its permission bits only. */
  function Restored(m: Mutation): Option<Node> {
    match m.before
    case Some(Regular(data, mode)) => Some(Regular(data, Mode(mode.perm, 0)))
    case _ => m.before
  }

  function Paths(ms: seq<Mutation>): set<Path> { set m | m in ms :: m.path }

  ghost predicate DistinctPaths(ms: seq<Mutation>) { forall i, j | 0 <= i < j < |ms| :: ms[i].path != ms[j].path }

  /** The state the mutations were planned for is the one that is there, and none of them is about a directory. */
  ghost predicate Fits(base: Nodes, ms: seq<Mutation>) {
    forall i | 0 <= i < |ms| :: Get(base, ms[i].path) == ms[i].before && ms[i].before != Some(Directory)
  }

  // ---------------------------------------------------------------------------
  // States on the way
  // ---------------------------------------------------------------------------

  /** What a path holds once directories were made, files staged and some paths mutated or restored. */
  function Look(base: Nodes, created: set<Path>, temps: map<Path, Node>, over: map<Path, Option<Node>>, p: Path): Option<Node> {
    if p in over then over[p] else if p in temps then Some(temps[p]) else if p in created then Some(Directory) else Get(base, p)
  }

  ghost predicate At(nodes: Nodes, base: Nodes, created: set<Path>, temps: map<Path, Node>, over: map<Path, Option<Node>>) {
    forall p :: Get(nodes, p) == Look(base, created, temps, over, p)
  }

  /** Directories and temporary files are new, temporary files are regular, and only paths of the plan are mutated. */
  ghost predicate Apart(base: Nodes, created: set<Path>, temps: map<Path, Node>, over: map<Path, Option<Node>>, paths: set<Path>) {
    && WellFormed(base)
    && (forall d | d in created :: d !in base)
    && (forall t | t in temps :: t !in base && t !in created && t !in paths && temps[t].Regular?)
    && (forall p | p in over :: p in paths && over[p] != Some(Directory))
    && (forall p | p in paths :: Get(base, p) != Some(Directory))
  }

  lemma LookAt(nodes: Nodes, base: Nodes, created: set<Path>, temps: map<Path, Node>, over: map<Path, Option<Node>>, p: Path)
    requires At(nodes, base, created, temps, over)
    ensures Get(nodes, p) == Look(base, created, temps, over, p)
  {
  }

  /** A directory of the original file system stays a directory throughout. */
  lemma ParentStays(nodes: Nodes, base: Nodes, created: set<Path>, temps: map<Path, Node>, over: map<Path, Option<Node>>, paths: set<Path>, p: Path)
    requires At(nodes, base, created, temps, over) && Apart(base, created, temps, over, paths) && p in base && IsDirectory(base, p)
    ensures IsDirectory(nodes, p)
  {
    LookAt(nodes, base, created, temps, over, p);
    assert Get(base, p) == Some(Directory);
  }

  lemma PutOver(nodes: Nodes, base: Nodes, created: set<Path>, temps: map<Path, Node>, over: map<Path, Option<Node>>, p: Path, node: Option<Node>, after: Nodes)
    requires At(nodes, base, created, temps, over)
    requires after == if node.None? then nodes - {p} else nodes[p := node.value]
    ensures At(after, base, created, temps, over[p := node])
  {
    forall q
      ensures Get(after, q) == Look(base, created, temps, over[p := node], q)
    {
      LookAt(nodes, base, created, temps, over, q);
    }
  }

  lemma AddTemp(nodes: Nodes, base: Nodes, created: set<Path>, temps: map<Path, Node>, over: map<Path, Option<Node>>, t: Path, node: Node)
    requires At(nodes, base, created, temps, over) && t !in over
    ensures At(nodes[t := node], base, created, temps[t := node], over)
  {
    var after := nodes[t := node];
    forall q
      ensures Get(after, q) == Look(base, created, temps[t := node], over, q)
    {
      LookAt(nodes, base, created, temps, over, q);
    }
  }

  lemma DropTemp(nodes: Nodes, base: Nodes, created: set<Path>, temps: map<Path, Node>, over: map<Path, Option<Node>>, t: Path)
    requires At(nodes, base, created, temps, over) && t in temps && t !in over && t !in created && t !in base
    ensures At(nodes - {t}, base, created, temps - {t}, over)
  {
    var after := nodes - {t};
    forall q
      ensures Get(after, q) == Look(base, created, temps - {t}, over, q)
    {
      LookAt(nodes, base, created, temps, over, q);
    }
  }

  /** Moving a temporary file onto a path. */
  lemma MoveTemp(nodes: Nodes, base: Nodes, created: set<Path>, temps: map<Path, Node>, over: map<Path, Option<Node>>, t: Path, p: Path)
    requires At(nodes, base, created, temps, over) && t in temps && t !in over && t !in created && t !in base
    ensures t in nodes && nodes[t] == temps[t]
    ensures At((nodes - {t})[p := nodes[t]], base, created, temps - {t}, over[p := Some(temps[t])])
  {
    LookAt(nodes, base, created, temps, over, t);
    DropTemp(nodes, base, created, temps, over, t);
    PutOver(nodes - {t}, base, created, temps - {t}, over, p, Some(temps[t]), (nodes - {t})[p := nodes[t]]);
  }

  // ---------------------------------------------------------------------------
  // Undoing
  // ---------------------------------------------------------------------------

  /** The names the system gives temporary files from the `first` on: in the directory asked for, and used by nothing else. */
  ghost predicate FreshNames(names: (Path, nat) -> Path, first: nat, base: Nodes, created: set<Path>, temps: map<Path, Node>, paths: set<Path>) {
    && (forall dir, k: nat | k >= first ::
          var t := names(dir, k); Parent(t) == dir && t !in base && t !in created && t !in temps && t !in paths)
    && (forall dir, k: nat, other, l: nat | first <= k < l :: names(dir, k) != names(other, l))
  }

  /** The mutated paths when the mutations from `lo` to `hi` were undone and those before `lo` stand. */
  ghost predicate Progress(over: map<Path, Option<Node>>, ms: seq<Mutation>, lo: nat, hi: nat)
    requires lo <= hi <= |ms|
  {
    && (forall p | p in over :: exists i :: 0 <= i < hi && ms[i].path == p)
    && (forall i | 0 <= i < lo :: ms[i].path in over && over[ms[i].path] == AfterNode(ms[i]))
    && (forall i | lo <= i < hi :: ms[i].path in over && over[ms[i].path] == Restored(ms[i]))
  }

  /** Paths of the plan never lead to directories, before or while the plan is carried out. */
  lemma NoDirectoryAt(nodes: Nodes, base: Nodes, created: set<Path>, temps: map<Path, Node>, over: map<Path, Option<Node>>, paths: set<Path>, p: Path)
    requires At(nodes, base, created, temps, over) && Apart(base, created, temps, over, paths) && p in over && p in paths
    ensures !IsDirectory(nodes, p) && Get(base, p) != Some(Directory)
  {
    LookAt(nodes, base, created, temps, over, p);
  }

  /** One mutation is undone; this cannot fail where nothing but the plan touches the file system. */
  method RestoreState(fs: FileSystem, m: Mutation, name: Path, ghost base: Nodes, ghost created: set<Path>, ghost temps: map<Path, Node>,
                      ghost over: map<Path, Option<Node>>, ghost paths: set<Path>) returns (ok: bool)
    requires At(fs.nodes, base, created, temps, over) && Apart(base, created, temps, over, paths)
    requires m.path in over && m.path in paths && Get(base, m.path) == m.before
    requires name !in fs.nodes && name !in over && name !in temps && name !in created && name !in base && name !in paths
    modifies fs
    ensures ok && At(fs.nodes, base, created, temps, over[m.path := Restored(m)])
  {
    hide At, Apart, WellFormed, Look;
    ghost var was := fs.nodes;
    NoDirectoryAt(fs.nodes, base, created, temps, over, paths, m.path);
    match m.before {
      case None =>
        ok := fs.Remove(m.path, false);
        PutOver(was, base, created, temps, over, m.path, None, fs.nodes);
      case Some(Symlink(target)) =>
        ok := fs.Remove(m.path, false);
        fs.Link(m.path, target);
        assert fs.nodes == was[m.path := Symlink(target)];
        PutOver(was, base, created, temps, over, m.path, Some(Symlink(target)), fs.nodes);
      case Some(Regular(data, mode)) =>
        ok := RestoreFile(fs, m.path, name, data, mode, base, created, temps, over, paths);
      case Some(Directory) =>
    }
  }

  method RestoreFile(fs: FileSystem, path: Path, name: Path, data: string, mode: Mode, ghost base: Nodes, ghost created: set<Path>,
                     ghost temps: map<Path, Node>, ghost over: map<Path, Option<Node>>, ghost paths: set<Path>) returns (ok: bool)
    requires At(fs.nodes, base, created, temps, over) && Apart(base, created, temps, over, paths)
    requires path in over && path in paths && path in base
    requires name !in fs.nodes && name !in over && name !in temps && name !in created && name !in base && name !in paths
    modifies fs
    ensures ok && At(fs.nodes, base, created, temps, over[path := Some(Regular(data, Mode(mode.perm, 0)))])
  {
    hide At, Apart, WellFormed, Parent;
    ghost var was := fs.nodes;
    ghost var staged := Regular(data, Mode(mode.perm, 0));
    RestoredPlace(was, base, created, temps, over, paths, path);
    ok := fs.StageFile(Parent(path), name, data, mode, false);
    AddTemp(was, base, created, temps, over, name, staged);
    ghost var after := fs.nodes;
    MoveTemp(after, base, created, temps[name := staged], over, name, path);
    ok := fs.Rename(name, path, false);
    assert temps[name := staged] - {name} == temps;
  }

  lemma RestoredPlace(nodes: Nodes, base: Nodes, created: set<Path>, temps: map<Path, Node>, over: map<Path, Option<Node>>, paths: set<Path>, path: Path)
    requires At(nodes, base, created, temps, over) && Apart(base, created, temps, over, paths)
    requires path in over && path in paths && path in base
    ensures IsDirectory(nodes, Parent(path)) && !IsDirectory(nodes, path)
  {
    hide At, Parent;
    LookAt(nodes, base, created, temps, over, path);
    ParentOfFile(base, created, temps, over, paths, path);
    ParentStays(nodes, base, created, temps, over, paths, Parent(path));
  }

  lemma ParentOfFile(base: Nodes, created: set<Path>, temps: map<Path, Node>, over: map<Path, Option<Node>>, paths: set<Path>, path: Path)
    requires Apart(base, created, temps, over, paths) && path in base
    ensures Parent(path) in base && IsDirectory(base, Parent(path))
  {
  }

  lemma NameIsFree(nodes: Nodes, names: (Path, nat) -> Path, first: nat, dir: Path, base: Nodes, created: set<Path>, temps: map<Path, Node>,
                   over: map<Path, Option<Node>>, paths: set<Path>)
    requires At(nodes, base, created, temps, over) && Apart(base, created, temps, over, paths)
    requires FreshNames(names, first, base, created, temps, paths)
    ensures var t := names(dir, first);
            t !in nodes && t !in base && t !in created && t !in temps && t !in paths && t !in over && Parent(t) == dir
  {
    LookAt(nodes, base, created, temps, over, names(dir, first));
  }

  lemma FewerNames(names: (Path, nat) -> Path, first: nat, base: Nodes, created: set<Path>, temps: map<Path, Node>, paths: set<Path>)
    requires FreshNames(names, first, base, created, temps, paths)
    ensures FreshNames(names, first + 1, base, created, temps, paths)
  {
  }

  lemma ProgressBack(over: map<Path, Option<Node>>, ms: seq<Mutation>, lo: nat, hi: nat)
    requires 0 < lo <= hi <= |ms| && DistinctPaths(ms) && Progress(over, ms, lo, hi)
    ensures Progress(over[ms[lo - 1].path := Restored(ms[lo - 1])], ms, lo - 1, hi)
  {
  }

  lemma ApartBack(base: Nodes, created: set<Path>, temps: map<Path, Node>, over: map<Path, Option<Node>>, paths: set<Path>, m: Mutation)
    requires Apart(base, created, temps, over, paths) && m.path in paths && m.before == Get(base, m.path)
    ensures Apart(base, created, temps, over[m.path := Restored(m)], paths)
  {
  }

  /** Applied mutations are undone, last first. */
  method Rollback(fs: FileSystem, applied: seq<Mutation>, names: (Path, nat) -> Path, first: nat, ghost base: Nodes, ghost created: set<Path>,
                  ghost temps: map<Path, Node>, ghost over: map<Path, Option<Node>>, ghost paths: set<Path>)
    returns (ghost undone: map<Path, Option<Node>>)
    requires At(fs.nodes, base, created, temps, over) && Apart(base, created, temps, over, paths)
    requires Progress(over, applied, |applied|, |applied|) && DistinctPaths(applied) && Fits(base, applied) && Paths(applied) <= paths
    requires FreshNames(names, first, base, created, temps, paths)
    modifies fs
    ensures At(fs.nodes, base, created, temps, undone) && Apart(base, created, temps, undone, paths)
    ensures Progress(undone, applied, 0, |applied|)
  {
    hide At, Apart, FreshNames, Progress, DistinctPaths;
    undone := over;
    var i, k := |applied|, first;
    while i > 0
      invariant 0 <= i <= |applied|
      invariant At(fs.nodes, base, created, temps, undone) && Apart(base, created, temps, undone, paths)
      invariant Progress(undone, applied, i, |applied|)
      invariant FreshNames(names, k, base, created, temps, paths)
    {
      i := i - 1;
      var m := applied[i];
      assert m in applied && m.path in Paths(applied);
      NameIsFree(fs.nodes, names, k, Parent(m.path), base, created, temps, undone, paths);
      IsOver(undone, applied, i, i + 1);
      var ok := RestoreState(fs, m, names(Parent(m.path), k), base, created, temps, undone, paths);
      FewerNames(names, k, base, created, temps, paths);
      ProgressBack(undone, applied, i + 1, |applied|);
      ApartBack(base, created, temps, undone, paths, m);
      undone := undone[m.path := Restored(m)];
      k := k + 1;
    }
  }

  lemma IsOver(over: map<Path, Option<Node>>, ms: seq<Mutation>, i: nat, lo: nat)
    requires i < lo <= |ms| && Progress(over, ms, lo, |ms|)
    ensures ms[i].path in over
  {
  }

  /** Which temporary file is staged for which mutation. */
  ghost predicate StagedAs(staged: map<Path, Path>, temps: map<Path, Node>) {
    && (forall p | p in staged :: staged[p] in temps)
    && (forall t | t in temps :: exists p :: p in staged && staged[p] == t)
    && (forall p, q | p in staged && q in staged && p != q :: staged[p] != staged[q])
  }

  lemma StagedDrop(staged: map<Path, Path>, temps: map<Path, Node>, p: Path)
    requires StagedAs(staged, temps) && p in staged
    ensures StagedAs(staged - {p}, temps - {staged[p]})
  {
    forall t | t in temps - {staged[p]}
      ensures exists q :: q in staged - {p} && (staged - {p})[q] == t
    {
      var q :| q in staged && staged[q] == t;
      assert q in staged - {p};
    }
  }

  lemma TempFacts(nodes: Nodes, base: Nodes, created: set<Path>, temps: map<Path, Node>, over: map<Path, Option<Node>>, paths: set<Path>, t: Path)
    requires At(nodes, base, created, temps, over) && Apart(base, created, temps, over, paths) && t in temps
    ensures t in nodes && nodes[t] == temps[t] && nodes[t].Regular? && t !in over && t !in created && t !in base
    ensures Apart(base, created, temps - {t}, over, paths)
  {
    LookAt(nodes, base, created, temps, over, t);
  }

  /** Staged files that were not moved into place are removed, in any order. */
  method DiscardTemps(fs: FileSystem, staged: map<Path, Path>, ghost base: Nodes, ghost created: set<Path>, ghost temps: map<Path, Node>,
                      ghost over: map<Path, Option<Node>>, ghost paths: set<Path>)
    requires At(fs.nodes, base, created, temps, over) && Apart(base, created, temps, over, paths) && StagedAs(staged, temps)
    modifies fs
    ensures At(fs.nodes, base, created, map[], over) && Apart(base, created, map[], over, paths)
  {
    hide At, Apart, StagedAs;
    var left := staged;
    ghost var rest := temps;
    while left.Keys != {}
      invariant At(fs.nodes, base, created, rest, over) && Apart(base, created, rest, over, paths) && StagedAs(left, rest)
      decreases |left.Keys|
    {
      var p :| p in left.Keys;
      StagedIn(left, rest, p);
      var t := left[p];
      TempFacts(fs.nodes, base, created, rest, over, paths, t);
      DropTemp(fs.nodes, base, created, rest, over, t);
      StagedDrop(left, rest, p);
      var ok := fs.Remove(t, false);
      assert (left - {p}).Keys == left.Keys - {p};
      left, rest := left - {p}, rest - {t};
    }
    NoneStaged(left, rest);
  }

  lemma StagedIn(staged: map<Path, Path>, temps: map<Path, Node>, p: Path)
    requires StagedAs(staged, temps) && p in staged
    ensures staged[p] in temps
  {
  }

  lemma NoneStaged(staged: map<Path, Path>, temps: map<Path, Node>)
    requires StagedAs(staged, temps) && staged.Keys == {}
    ensures temps == map[]
  {
    assert forall t | t in temps :: exists p :: p in staged.Keys && staged[p] == t;
  }

  // ---------------------------------------------------------------------------
  // Directories
  // ---------------------------------------------------------------------------

  function SetOf(ds: seq<Path>): set<Path> { set d | d in ds }

  /** Directories are made shallowest first and removed deepest first. */
  function Rank(p: Path, deepFirst: bool): int { if deepFirst then 0 - Depth(p) else Depth(p) }

  ghost predicate Ordered(ds: seq<Path>, deepFirst: bool) { forall i, j | 0 <= i < j < |ds| :: Rank(ds[i], deepFirst) <= Rank(ds[j], deepFirst) }

  lemma InsertedOrdered(a: seq<Path>, d: Path, b: seq<Path>, deepFirst: bool)
    requires Ordered(a + b, deepFirst)
    requires forall i | 0 <= i < |a| :: Rank(a[i], deepFirst) <= Rank(d, deepFirst)
    requires b != [] ==> Rank(d, deepFirst) <= Rank(b[0], deepFirst)
    ensures Ordered(a + [d] + b, deepFirst)
  {
    hide Rank;
    var r, s := a + [d] + b, a + b;
    assert b != [] ==> s[|a|] == b[0];
    forall i, j | 0 <= i < j < |r|
      ensures Rank(r[i], deepFirst) <= Rank(r[j], deepFirst)
    {
      var k, l := if i < |a| then i else i - 1, if j < |a| then j else j - 1;
      assert i != |a| ==> r[i] == s[k];
      assert j != |a| ==> r[j] == s[l];
      assert i == |a| ==> Rank(d, deepFirst) <= Rank(s[|a|], deepFirst);
    }
  }

  method InsertByDepth(ds: seq<Path>, d: Path, deepFirst: bool) returns (r: seq<Path>)
    requires Ordered(ds, deepFirst)
    ensures multiset(r) == multiset(ds) + multiset{d} && Ordered(r, deepFirst)
  {
    hide Rank, Ordered;
    var k := 0;
    while k < |ds| && Rank(ds[k], deepFirst) <= Rank(d, deepFirst)
      invariant 0 <= k <= |ds| && forall j | 0 <= j < k :: Rank(ds[j], deepFirst) <= Rank(d, deepFirst)
    {
      k := k + 1;
    }
    assert ds == ds[..k] + ds[k..];
    InsertedOrdered(ds[..k], d, ds[k..], deepFirst);
    r := ds[..k] + [d] + ds[k..];
  }

  method SortByDepth(ds: seq<Path>, deepFirst: bool) returns (r: seq<Path>)
    ensures multiset(r) == multiset(ds) && Ordered(r, deepFirst)
  {
    hide Rank, Ordered;
    r := [];
    NothingOrdered(deepFirst);
    var i := 0;
    while i < |ds|
      invariant 0 <= i <= |ds| && multiset(r) == multiset(ds[..i]) && Ordered(r, deepFirst)
    {
      assert ds[..i + 1] == ds[..i] + [ds[i]];
      r := InsertByDepth(r, ds[i], deepFirst);
      i := i + 1;
    }
    assert ds[..i] == ds;
  }

  lemma NothingOrdered(deepFirst: bool)
    ensures Ordered([], deepFirst)
  {
  }

  lemma RankOfLater(ordered: seq<Path>, deepFirst: bool, i: nat, q: Path)
    requires Ordered(ordered, deepFirst) && i < |ordered| && q in ordered[i..]
    ensures Rank(ordered[i], deepFirst) <= Rank(q, deepFirst)
  {
    hide Rank;
    var j :| 0 <= j < |ordered[i..]| && ordered[i..][j] == q;
    assert ordered[i + j] == q;
  }

  /** Nothing is left in a directory that the commit created, except created directories below it. */
  lemma OnlyCreatedBelow(nodes: Nodes, base: Nodes, created: set<Path>, over: map<Path, Option<Node>>, d: Path, q: Path)
    requires WellFormed(base) && At(nodes, base, created, map[], over) && d !in base
    requires forall p | p in over :: over[p].Some? ==> p in base
    requires q in nodes && Parent(q) == d
    ensures q in created && Depth(q) == Depth(d) + 1
  {
    LookAt(nodes, base, created, map[], over, q);
    assert IsDirectory(base, "");
    assert q in base ==> IsDirectory(base, Parent(q));
    ChildIsDeeper(q);
  }

  lemma DropDirectory(nodes: Nodes, base: Nodes, created: set<Path>, over: map<Path, Option<Node>>, d: Path)
    requires At(nodes, base, created, map[], over) && d !in base && (d in over ==> over[d].None?)
    ensures At(nodes - {d}, base, created - {d}, map[], over)
  {
    var after := nodes - {d};
    forall q
      ensures Get(after, q) == Look(base, created - {d}, map[], over, q)
    {
      LookAt(nodes, base, created, map[], over, q);
    }
  }

  lemma NoneBelow(nodes: Nodes, base: Nodes, left: set<Path>, over: map<Path, Option<Node>>, ordered: seq<Path>, i: nat)
    requires WellFormed(base) && At(nodes, base, left, map[], over) && i < |ordered| && ordered[i] !in base
    requires forall p | p in over :: over[p].Some? ==> p in base
    requires forall d | d in left :: d in ordered[i..]
    requires Ordered(ordered, true)
    ensures Empty(nodes, ordered[i])
  {
    hide At, WellFormed, Parent, Depth;
    var d := ordered[i];
    forall q | q in nodes && q != d
      ensures Parent(q) != d
    {
      if Parent(q) == d {
        OnlyCreatedBelow(nodes, base, left, over, d, q);
        RankOfLater(ordered, true, i, q);
      }
    }
  }

  /** The created directories are removed, deepest first. */
  method RemoveDirectories(fs: FileSystem, directories: seq<Path>, ghost base: Nodes, ghost created: set<Path>, ghost over: map<Path, Option<Node>>)
    requires At(fs.nodes, base, created, map[], over) && WellFormed(base)
    requires created == SetOf(directories) && forall d | d in created :: d !in base
    requires forall p | p in over :: over[p].Some? ==> p in base
    modifies fs
    ensures At(fs.nodes, base, {}, map[], over)
  {
    hide At, WellFormed, Parent, Depth;
    var ordered := SortByDepth(directories, true);
    assert forall d :: d in directories <==> d in multiset(directories);
    assert forall d :: d in ordered <==> d in multiset(ordered);
    ghost var left := created;
    var i := 0;
    while i < |ordered|
      invariant 0 <= i <= |ordered| && At(fs.nodes, base, left, map[], over)
      invariant forall d | d in left :: d in created && d in ordered[i..]
      invariant left <= created
    {
      var d := ordered[i];
      assert ordered[i..] == [d] + ordered[i + 1..];
      assert d in ordered && d in directories && d in created;
      NoneBelow(fs.nodes, base, left, over, ordered, i);
      DropDirectory(fs.nodes, base, left, over, d);
      AbsentIfOver(over, base, d);
      var ok := fs.Remove(d, false);
      left := left - {d};
      i := i + 1;
    }
    assert ordered[i..] == [];
    assert left == {};
  }

  lemma AbsentIfOver(over: map<Path, Option<Node>>, base: Nodes, d: Path)
    requires d !in base && forall p | p in over :: over[p].Some? ==> p in base
    ensures d in over ==> over[d].None?
  {
  }

  /** Every directory's parent is there already or is made too. */
  ghost predicate ParentsThere(base: Nodes, ds: seq<Path>) { forall d | d in ds :: IsDirectory(base, Parent(d)) || Parent(d) in ds }

  ghost predicate AllDifferent(ds: seq<Path>) { forall i, j | 0 <= i < j < |ds| :: ds[i] != ds[j] }

  lemma ParentMadeFirst(base: Nodes, ds: seq<Path>, i: nat)
    requires WellFormed(base) && (forall d | d in ds :: d !in base) && Ordered(ds, false) && i < |ds| && Parent(ds[i]) in ds
    ensures Parent(ds[i]) in ds[..i]
  {
    var parent := Parent(ds[i]);
    assert IsDirectory(base, "");
    ChildIsDeeper(ds[i]);
    assert ds == ds[..i] + ds[i..];
    if parent in ds[i..] {
      RankOfLater(ds, false, i, parent);
    }
  }

  lemma AddDirectory(nodes: Nodes, base: Nodes, created: set<Path>, d: Path)
    requires At(nodes, base, created, map[], map[])
    ensures At(nodes[d := Directory], base, created + {d}, map[], map[])
  {
    var after := nodes[d := Directory];
    forall q
      ensures Get(after, q) == Look(base, created + {d}, map[], map[], q)
    {
      LookAt(nodes, base, created, map[], map[], q);
    }
  }

  lemma MkdirWorks(nodes: Nodes, base: Nodes, ds: seq<Path>, i: nat)
    requires i < |ds| && At(nodes, base, SetOf(ds[..i]), map[], map[]) && WellFormed(base)
    requires (forall d | d in ds :: d !in base) && Ordered(ds, false) && ParentsThere(base, ds) && AllDifferent(ds)
    ensures ds[i] !in nodes && IsDirectory(nodes, Parent(ds[i]))
  {
    var made := SetOf(ds[..i]);
    LookAt(nodes, base, made, map[], map[], ds[i]);
    LookAt(nodes, base, made, map[], map[], Parent(ds[i]));
    assert ds[i] in ds;
    if Parent(ds[i]) in ds {
      ParentMadeFirst(base, ds, i);
    }
  }

  /** The planned directories are made one after the other, up to the first that fails. */
  method MakeDirectories(fs: FileSystem, ds: seq<Path>, fault: Fault) returns (ok: bool, made: nat)
    requires WellFormed(fs.nodes) && (forall d | d in ds :: d !in fs.nodes) && Ordered(ds, false)
    modifies fs
    ensures made <= |ds| && (ok <==> made == |ds|)
    ensures At(fs.nodes, old(fs.nodes), SetOf(ds[..made]), map[], map[])
    ensures ParentsThere(old(fs.nodes), ds) && AllDifferent(ds) && !fault.MkdirFault? ==> ok
  {
    hide At, WellFormed, Ordered, ParentsThere, AllDifferent;
    ghost var base := fs.nodes;
    made := 0;
    NothingYet(base, SetOf(ds[..0]));
    while made < |ds|
      invariant 0 <= made <= |ds| && At(fs.nodes, base, SetOf(ds[..made]), map[], map[])
    {
      ghost var was, before := fs.nodes, SetOf(ds[..made]);
      if ParentsThere(base, ds) && AllDifferent(ds) {
        MkdirWorks(was, base, ds, made);
      }
      var done := fs.Mkdir(ds[made], fault == MkdirFault(made));
      if !done {
        return false, made;
      }
      AddDirectory(was, base, before, ds[made]);
      assert SetOf(ds[..made + 1]) == before + {ds[made]};
      made := made + 1;
    }
    return true, made;
  }

  lemma NothingYet(base: Nodes, none: set<Path>)
    requires none == {}
    ensures At(base, base, none, map[], map[])
  {
  }

  // ---------------------------------------------------------------------------
  // Staging and applying
  // ---------------------------------------------------------------------------

  /** Mutations `lo` to `hi` that leave a file have its contents staged, and nothing else is. */
  ghost predicate StagedFor(ms: seq<Mutation>, lo: nat, hi: nat, staged: map<Path, Path>, temps: map<Path, Node>)
    requires lo <= hi <= |ms|
  {
    && StagedAs(staged, temps)
    && (forall i | lo <= i < hi && ms[i].after.Some? :: ms[i].path in staged && staged[ms[i].path] in temps && Some(temps[staged[ms[i].path]]) == AfterNode(ms[i]))
    && (forall p | p in staged :: exists i :: lo <= i < hi && ms[i].path == p && ms[i].after.Some?)
  }

  lemma StagedAsAdd(staged: map<Path, Path>, temps: map<Path, Node>, p: Path, t: Path, node: Node)
    requires StagedAs(staged, temps) && p !in staged && t !in temps
    ensures StagedAs(staged[p := t], temps[t := node])
  {
    var more, now := staged[p := t], temps[t := node];
    forall u | u in now
      ensures exists q :: q in more && more[q] == u
    {
      if u == t {
        assert more[p] == t;
      } else {
        var q :| q in staged && staged[q] == u;
        assert more[q] == u;
      }
    }
  }

  lemma NotStagedYet(ms: seq<Mutation>, hi: nat, staged: map<Path, Path>, temps: map<Path, Node>)
    requires hi < |ms| && DistinctPaths(ms) && StagedFor(ms, 0, hi, staged, temps)
    ensures ms[hi].path !in staged
  {
    hide StagedAs, AfterNode;
  }

  lemma StagedAdd(ms: seq<Mutation>, hi: nat, staged: map<Path, Path>, temps: map<Path, Node>, t: Path, node: Node)
    requires hi < |ms| && DistinctPaths(ms) && StagedFor(ms, 0, hi, staged, temps) && t !in temps
    requires ms[hi].after.Some? && AfterNode(ms[hi]) == Some(node)
    ensures StagedFor(ms, 0, hi + 1, staged[ms[hi].path := t], temps[t := node])
  {
    hide StagedAs, AfterNode;
    var p := ms[hi].path;
    NotStagedYet(ms, hi, staged, temps);
    StagedAsAdd(staged, temps, p, t, node);
    var more := staged[p := t];
    forall q | q in more
      ensures exists i :: 0 <= i < hi + 1 && ms[i].path == q && ms[i].after.Some?
    {
      if q == p {
        assert ms[hi].path == q;
      }
    }
  }

  lemma StagedSkip(ms: seq<Mutation>, hi: nat, staged: map<Path, Path>, temps: map<Path, Node>)
    requires hi < |ms| && StagedFor(ms, 0, hi, staged, temps) && ms[hi].after.None?
    ensures StagedFor(ms, 0, hi + 1, staged, temps)
  {
    forall q | q in staged
      ensures exists i :: 0 <= i < hi + 1 && ms[i].path == q && ms[i].after.Some?
    {
      var i :| 0 <= i < hi && ms[i].path == q && ms[i].after.Some?;
    }
  }

  /** Where a mutation puts a file there is, or will be, a directory. */
  ghost predicate PlaceThere(base: Nodes, created: set<Path>, m: Mutation) {
    m.after.Some? ==> IsDirectory(base, Parent(m.path)) || Parent(m.path) in created
  }

  lemma MoreTemps(names: (Path, nat) -> Path, first: nat, dir: Path, base: Nodes, created: set<Path>, temps: map<Path, Node>, over: map<Path, Option<Node>>, paths: set<Path>, node: Node)
    requires FreshNames(names, first, base, created, temps, paths) && Apart(base, created, temps, over, paths) && node.Regular?
    ensures var t := names(dir, first);
            FreshNames(names, first + 1, base, created, temps[t := node], paths) && Apart(base, created, temps[t := node], over, paths)
  {
  }

  lemma PlaceIsDirectory(nodes: Nodes, base: Nodes, created: set<Path>, temps: map<Path, Node>, over: map<Path, Option<Node>>, paths: set<Path>, m: Mutation)
    requires At(nodes, base, created, temps, over) && Apart(base, created, temps, over, paths) && PlaceThere(base, created, m) && m.after.Some?
    requires created !! paths
    ensures IsDirectory(nodes, Parent(m.path))
  {
    LookAt(nodes, base, created, temps, over, Parent(m.path));
    assert IsDirectory(base, Parent(m.path)) ==> Get(base, Parent(m.path)) == Some(Directory);
  }

  /** New contents are staged beside the paths they are for. */
  method StageAll(fs: FileSystem, ms: seq<Mutation>, names: (Path, nat) -> Path, fault: Fault, ghost base: Nodes, ghost created: set<Path>)
    returns (ok: bool, staged: map<Path, Path>, next: nat, ghost temps: map<Path, Node>)
    requires At(fs.nodes, base, created, map[], map[]) && Apart(base, created, map[], map[], Paths(ms)) && DistinctPaths(ms)
    requires FreshNames(names, 0, base, created, map[], Paths(ms))
    modifies fs
    ensures At(fs.nodes, base, created, temps, map[]) && Apart(base, created, temps, map[], Paths(ms)) && StagedAs(staged, temps)
    ensures FreshNames(names, next, base, created, temps, Paths(ms))
    ensures ok ==> StagedFor(ms, 0, |ms|, staged, temps)
    ensures !fault.StageFault? && created !! Paths(ms) && (forall m | m in ms :: PlaceThere(base, created, m)) ==> ok
  {
    hide At, Apart, FreshNames, StagedFor, StagedAs, DistinctPaths, PlaceThere, Paths;
    staged, next, temps := map[], 0, map[];
    var i := 0;
    NoneStagedYet(ms);
    while i < |ms|
      invariant 0 <= i <= |ms|
      invariant At(fs.nodes, base, created, temps, map[]) && Apart(base, created, temps, map[], Paths(ms))
      invariant FreshNames(names, next, base, created, temps, Paths(ms))
      invariant StagedFor(ms, 0, i, staged, temps)
    {
      var m := ms[i];
      StagedForAs(ms, 0, i, staged, temps);
      if m.after.None? {
        StagedSkip(ms, i, staged, temps);
      } else {
        ghost var was := fs.nodes;
        var dir, content := Parent(m.path), m.after.value;
        NameIsFree(was, names, next, dir, base, created, temps, map[], Paths(ms));
        if created !! Paths(ms) && PlaceThere(base, created, m) {
          PlaceIsDirectory(was, base, created, temps, map[], Paths(ms), m);
        }
        var t := names(dir, next);
        var done := fs.StageFile(dir, t, content.data, content.mode, fault == StageFault(i));
        if !done {
          return false, staged, next, temps;
        }
        ghost var node := Regular(content.data, Mode(content.mode.perm, 0));
        AddTemp(was, base, created, temps, map[], t, node);
        MoreTemps(names, next, dir, base, created, temps, map[], Paths(ms), node);
        StagedAdd(ms, i, staged, temps, t, node);
        staged, temps, next := staged[m.path := t], temps[t := node], next + 1;
      }
      i := i + 1;
    }
    StagedForAs(ms, 0, |ms|, staged, temps);
    return true, staged, next, temps;
  }

  lemma NoneStagedYet(ms: seq<Mutation>)
    ensures StagedFor(ms, 0, 0, map[], map[])
  {
  }

  lemma StagedForAs(ms: seq<Mutation>, lo: nat, hi: nat, staged: map<Path, Path>, temps: map<Path, Node>)
    requires lo <= hi <= |ms| && StagedFor(ms, lo, hi, staged, temps)
    ensures StagedAs(staged, temps)
  {
  }

  lemma OtherStaged(ms: seq<Mutation>, lo: nat, staged: map<Path, Path>, temps: map<Path, Node>, i: nat)
    requires lo < i < |ms| && DistinctPaths(ms) && StagedFor(ms, lo, |ms|, staged, temps) && ms[lo].after.Some? && ms[i].after.Some?
    ensures ms[lo].path in staged && staged[ms[lo].path] in temps
    ensures var left, rest, p := staged - {ms[lo].path}, temps - {staged[ms[lo].path]}, ms[i].path;
            p in left && left[p] in rest && Some(rest[left[p]]) == AfterNode(ms[i])
  {
    hide AfterNode;
  }

  lemma StagedTaken(ms: seq<Mutation>, lo: nat, staged: map<Path, Path>, temps: map<Path, Node>)
    requires lo < |ms| && DistinctPaths(ms) && StagedFor(ms, lo, |ms|, staged, temps) && ms[lo].after.Some?
    ensures ms[lo].path in staged && staged[ms[lo].path] in temps && Some(temps[staged[ms[lo].path]]) == AfterNode(ms[lo])
    ensures StagedFor(ms, lo + 1, |ms|, staged - {ms[lo].path}, temps - {staged[ms[lo].path]})
  {
    hide StagedAs, AfterNode, DistinctPaths;
    var left, rest := staged - {ms[lo].path}, temps - {staged[ms[lo].path]};
    StagedForAs(ms, lo, |ms|, staged, temps);
    StagedDrop(staged, temps, ms[lo].path);
    forall i | lo + 1 <= i < |ms| && ms[i].after.Some?
      ensures ms[i].path in left && left[ms[i].path] in rest && Some(rest[left[ms[i].path]]) == AfterNode(ms[i])
    {
      OtherStaged(ms, lo, staged, temps, i);
    }
    forall q | q in left
      ensures exists i :: lo + 1 <= i < |ms| && ms[i].path == q && ms[i].after.Some?
    {
      var i :| lo <= i < |ms| && ms[i].path == q && ms[i].after.Some?;
    }
  }

  lemma StagedSkipped(ms: seq<Mutation>, lo: nat, staged: map<Path, Path>, temps: map<Path, Node>)
    requires lo < |ms| && StagedFor(ms, lo, |ms|, staged, temps) && ms[lo].after.None?
    ensures StagedFor(ms, lo + 1, |ms|, staged, temps)
  {
    hide StagedAs, AfterNode;
    forall q | q in staged
      ensures exists i :: lo + 1 <= i < |ms| && ms[i].path == q && ms[i].after.Some?
    {
      var i :| lo <= i < |ms| && ms[i].path == q && ms[i].after.Some?;
    }
  }

  lemma NoneLeft(ms: seq<Mutation>, staged: map<Path, Path>, temps: map<Path, Node>)
    requires StagedFor(ms, |ms|, |ms|, staged, temps)
    ensures temps == map[]
  {
    assert staged.Keys == {};
    NoneStaged(staged, temps);
  }

  lemma ProgressOn(over: map<Path, Option<Node>>, ms: seq<Mutation>, i: nat)
    requires i < |ms| && DistinctPaths(ms) && Progress(over, ms, i, i)
    ensures Progress(over[ms[i].path := AfterNode(ms[i])], ms, i + 1, i + 1)
  {
    hide AfterNode;
    var more := over[ms[i].path := AfterNode(ms[i])];
    forall p | p in more
      ensures exists k :: 0 <= k < i + 1 && ms[k].path == p
    {
      if p == ms[i].path {
        assert ms[i].path == p;
      }
    }
  }

  lemma ApartOn(base: Nodes, created: set<Path>, temps: map<Path, Node>, fewer: map<Path, Node>, over: map<Path, Option<Node>>, ms: seq<Mutation>, i: nat)
    requires i < |ms| && Apart(base, created, temps, over, Paths(ms)) && forall t | t in fewer :: t in temps && fewer[t] == temps[t]
    ensures Apart(base, created, fewer, over[ms[i].path := AfterNode(ms[i])], Paths(ms))
  {
    assert ms[i] in ms;
  }

  /** A path of the plan that was not mutated yet is what it was, unless the plan also makes it a directory. */
  lemma NotYetMutated(nodes: Nodes, base: Nodes, created: set<Path>, temps: map<Path, Node>, over: map<Path, Option<Node>>, ms: seq<Mutation>, i: nat)
    requires i < |ms| && At(nodes, base, created, temps, over) && Apart(base, created, temps, over, Paths(ms)) && DistinctPaths(ms) && Progress(over, ms, i, i)
    ensures created !! Paths(ms) ==> !IsDirectory(nodes, ms[i].path)
  {
    var p := ms[i].path;
    assert ms[i] in ms && p in Paths(ms);
    LookAt(nodes, base, created, temps, over, p);
  }

  /** One mutation is applied: a removal, or the move of its staged file. */
  method ApplyState(fs: FileSystem, m: Mutation, staged: Path, fault: bool) returns (ok: bool)
    modifies fs
    ensures m.after.None? ==> (ok <==> !fault && (IsDirectory(old(fs.nodes), m.path) ==> Empty(old(fs.nodes), m.path)))
    ensures m.after.Some? ==> (ok <==> !fault && staged in old(fs.nodes) && !IsDirectory(old(fs.nodes), staged) &&
                                       !IsDirectory(old(fs.nodes), m.path) && IsDirectory(old(fs.nodes), Parent(m.path)))
    ensures !ok ==> fs.nodes == old(fs.nodes)
    ensures ok ==> fs.nodes == if m.after.None? then old(fs.nodes) - {m.path} else (old(fs.nodes) - {staged})[m.path := old(fs.nodes)[staged]]
  {
    if m.after.None? {
      ok := fs.Remove(m.path, fault);
    } else {
      ok := fs.Rename(staged, m.path, fault);
    }
  }

  predicate FaultIn(fault: Fault) { fault.CanceledApply? || fault.ApplyFault? || fault.Injected? }

  lemma Applied(was: Nodes, nodes: Nodes, base: Nodes, created: set<Path>, temps: map<Path, Node>, over: map<Path, Option<Node>>, ms: seq<Mutation>, i: nat, staged: map<Path, Path>)
    requires i < |ms| && DistinctPaths(ms) && At(was, base, created, temps, over) && Apart(base, created, temps, over, Paths(ms))
    requires StagedFor(ms, i, |ms|, staged, temps) && Progress(over, ms, i, i)
    requires ms[i].after.Some? ==> ms[i].path in staged && staged[ms[i].path] in was
    requires nodes == if ms[i].after.None? then was - {ms[i].path} else (was - {staged[ms[i].path]})[ms[i].path := was[staged[ms[i].path]]]
    ensures ms[i].after.Some? ==> ms[i].path in staged && staged[ms[i].path] in temps
    ensures var p := ms[i].path;
            var rest := if ms[i].after.None? then temps else temps - {staged[p]};
            var left := if ms[i].after.None? then staged else staged - {p};
            && At(nodes, base, created, rest, over[p := AfterNode(ms[i])])
            && Apart(base, created, rest, over[p := AfterNode(ms[i])], Paths(ms))
            && StagedFor(ms, i + 1, |ms|, left, rest) && Progress(over[p := AfterNode(ms[i])], ms, i + 1, i + 1)
  {
    hide At, Apart, StagedFor, Progress, DistinctPaths, Paths;
    var p := ms[i].path;
    ProgressOn(over, ms, i);
    if ms[i].after.None? {
      StagedSkipped(ms, i, staged, temps);
      PutOver(was, base, created, temps, over, p, None, nodes);
      ApartOn(base, created, temps, temps, over, ms, i);
    } else {
      StagedTaken(ms, i, staged, temps);
      var t := staged[p];
      TempFacts(was, base, created, temps, over, Paths(ms), t);
      MoveTemp(was, base, created, temps, over, t, p);
      ApartOn(base, created, temps, temps - {t}, over, ms, i);
    }
  }

  lemma StagedReady(nodes: Nodes, base: Nodes, created: set<Path>, temps: map<Path, Node>, over: map<Path, Option<Node>>, ms: seq<Mutation>, i: nat, staged: map<Path, Path>)
    requires i < |ms| && DistinctPaths(ms) && At(nodes, base, created, temps, over) && Apart(base, created, temps, over, Paths(ms))
    requires StagedFor(ms, i, |ms|, staged, temps) && ms[i].after.Some?
    ensures ms[i].path in staged && staged[ms[i].path] in nodes && !IsDirectory(nodes, staged[ms[i].path])
  {
    hide At, Apart, StagedFor, DistinctPaths, Paths;
    StagedTaken(ms, i, staged, temps);
    TempFacts(nodes, base, created, temps, over, Paths(ms), staged[ms[i].path]);
  }

  /** The mutations are applied in order, up to the first that fails or is followed by a failure. */
  method ApplyAll(fs: FileSystem, ms: seq<Mutation>, staged: map<Path, Path>, fault: Fault, ghost base: Nodes, ghost created: set<Path>, ghost temps: map<Path, Node>)
    returns (ok: bool, applied: nat, left: map<Path, Path>, ghost rest: map<Path, Node>, ghost over: map<Path, Option<Node>>)
    requires At(fs.nodes, base, created, temps, map[]) && Apart(base, created, temps, map[], Paths(ms)) && DistinctPaths(ms)
    requires StagedFor(ms, 0, |ms|, staged, temps)
    modifies fs
    ensures applied <= |ms| && At(fs.nodes, base, created, rest, over) && Apart(base, created, rest, over, Paths(ms))
    ensures Progress(over, ms, applied, applied) && StagedAs(left, rest) && (forall t | t in rest :: t in temps)
    ensures ok ==> applied == |ms| && rest == map[]
    ensures !FaultIn(fault) && created !! Paths(ms) && (forall m | m in ms :: PlaceThere(base, created, m)) ==> ok
  {
    hide At, Apart, StagedFor, StagedAs, Progress, DistinctPaths, PlaceThere, Paths;
    applied, left, rest, over := 0, staged, temps, map[];
    NoProgressYet(ms);
    while applied < |ms|
      invariant 0 <= applied <= |ms| && At(fs.nodes, base, created, rest, over) && Apart(base, created, rest, over, Paths(ms))
      invariant StagedFor(ms, applied, |ms|, left, rest) && Progress(over, ms, applied, applied) && (forall t | t in rest :: t in temps)
    {
      StagedForAs(ms, applied, |ms|, left, rest);
      if fault == CanceledApply(applied) {
        return false, applied, left, rest, over;
      }
      var m := ms[applied];
      ghost var was := fs.nodes;
      NotYetMutated(was, base, created, rest, over, ms, applied);
      if m.after.Some? {
        StagedReady(was, base, created, rest, over, ms, applied, left);
        if created !! Paths(ms) && PlaceThere(base, created, m) {
          PlaceIsDirectory(was, base, created, rest, over, Paths(ms), m);
        }
      }
      var temp := if m.path in left then left[m.path] else "";
      var done := ApplyState(fs, m, temp, fault == ApplyFault(applied));
      if !done {
        return false, applied, left, rest, over;
      }
      Applied(was, fs.nodes, base, created, rest, over, ms, applied, left);
      if m.after.Some? {
        rest, left := rest - {temp}, left - {m.path};
      }
      over := over[m.path := AfterNode(m)];
      applied := applied + 1;
      if fault == Injected(applied - 1) {
        StagedForAs(ms, applied, |ms|, left, rest);
        return false, applied, left, rest, over;
      }
    }
    NoneLeft(ms, left, rest);
    StagedForAs(ms, applied, |ms|, left, rest);
    return true, applied, left, rest, over;
  }

  lemma NoProgressYet(ms: seq<Mutation>)
    ensures Progress(map[], ms, 0, 0)
  {
  }

  // ---------------------------------------------------------------------------
  // Checking a plan
  // ---------------------------------------------------------------------------

  /** The order of paths as strings. */
  predicate Leq(a: Path, b: Path) { a == "" || (b != "" && (a[0] < b[0] || (a[0] == b[0] && Leq(a[1..], b[1..])))) }

  lemma {:induction false} LeqTotal(a: Path, b: Path)
    ensures Leq(a, b) || Leq(b, a)
  {
    if a != "" && b != "" {
      LeqTotal(a[1..], b[1..]);
    }
  }

  lemma {:induction false} LeqTransitive(a: Path, b: Path, c: Path)
    requires Leq(a, b) && Leq(b, c)
    ensures Leq(a, c)
  {
    if a != "" && a[0] == b[0] == c[0] {
      LeqTransitive(a[1..], b[1..], c[1..]);
    }
  }

  lemma {:induction false} LeqAntisymmetric(a: Path, b: Path)
    requires Leq(a, b) && Leq(b, a)
    ensures a == b
  {
    if a != "" {
      LeqAntisymmetric(a[1..], b[1..]);
      assert a == [a[0]] + a[1..] && b == [b[0]] + b[1..];
    }
  }

  /** `b` is greater at the first place where they differ. */
  ghost predicate DiffersAbove(a: Path, b: Path) { exists k :: 0 <= k < |a| && k < |b| && a[..k] == b[..k] && a[k] < b[k] }

  lemma DiffersLater(a: Path, b: Path)
    requires a != "" && b != "" && a[0] == b[0]
    ensures DiffersAbove(a, b) <==> DiffersAbove(a[1..], b[1..])
  {
    if k :| 0 <= k < |a| && k < |b| && a[..k] == b[..k] && a[k] < b[k] {
      assert a[..k][1..] == a[1..][..k - 1] && b[..k][1..] == b[1..][..k - 1];
      assert a[1..][k - 1] < b[1..][k - 1];
    }
    if j :| 0 <= j < |a[1..]| && j < |b[1..]| && a[1..][..j] == b[1..][..j] && a[1..][j] < b[1..][j] {
      assert a[..j + 1] == [a[0]] + a[1..][..j] && b[..j + 1] == [b[0]] + b[1..][..j];
      assert a[j + 1] < b[j + 1];
    }
  }

  lemma DiffersAtOnce(a: Path, b: Path)
    requires a != "" && b != "" && a[0] != b[0]
    ensures DiffersAbove(a, b) <==> a[0] < b[0]
    ensures !(a <= b)
  {
    assert a[..0] == b[..0];
    forall k | 0 < k < |a| && k < |b|
      ensures a[..k] != b[..k]
    {
      assert a[..k][0] != b[..k][0];
    }
  }

  /** The order of strings: a prefix comes first, else the smaller character at the first difference. */
  lemma {:induction false} LeqMeans(a: Path, b: Path)
    ensures Leq(a, b) <==> a <= b || DiffersAbove(a, b)
    decreases |a|
  {
    if a != "" && b != "" {
      if a[0] == b[0] {
        hide DiffersAbove;
        LeqMeans(a[1..], b[1..]);
        DiffersLater(a, b);
        assert a == [a[0]] + a[1..] && b == [b[0]] + b[1..];
      } else {
        DiffersAtOnce(a, b);
      }
    }
  }

  ghost predicate SortedByPath(ms: seq<Mutation>) { forall i, j | 0 <= i < j < |ms| :: Leq(ms[i].path, ms[j].path) }

  lemma InsertedByPath(a: seq<Mutation>, m: Mutation, b: seq<Mutation>)
    requires SortedByPath(a + b) && (forall i | 0 <= i < |a| :: Leq(a[i].path, m.path))
    requires b != [] ==> Leq(m.path, b[0].path)
    ensures SortedByPath(a + [m] + b)
  {
    hide Leq;
    var r, s := a + [m] + b, a + b;
    assert b != [] ==> s[|a|] == b[0];
    forall i, j | 0 <= i < j < |r|
      ensures Leq(r[i].path, r[j].path)
    {
      var k, l := if i < |a| then i else i - 1, if j < |a| then j else j - 1;
      assert i != |a| ==> r[i] == s[k];
      assert j != |a| ==> r[j] == s[l];
      if i == |a| && l > |a| {
        assert Leq(s[|a|].path, s[l].path);
        LeqTransitive(m.path, s[|a|].path, s[l].path);
      }
    }
  }

  lemma NothingSorted()
    ensures SortedByPath([])
  {
  }

  method SortByPath(ms: seq<Mutation>) returns (r: seq<Mutation>)
    ensures multiset(r) == multiset(ms) && SortedByPath(r)
  {
    hide Leq, SortedByPath;
    r := [];
    NothingSorted();
    var i := 0;
    while i < |ms|
      invariant 0 <= i <= |ms| && multiset(r) == multiset(ms[..i]) && SortedByPath(r)
    {
      var k := 0;
      while k < |r| && Leq(r[k].path, ms[i].path)
        invariant 0 <= k <= |r| && forall j | 0 <= j < k :: Leq(r[j].path, ms[i].path)
      {
        k := k + 1;
      }
      if k < |r| {
        LeqTotal(r[k].path, ms[i].path);
      }
      assert ms[..i + 1] == ms[..i] + [ms[i]] && r == r[..k] + r[k..];
      InsertedByPath(r[..k], ms[i], r[k..]);
      r := r[..k] + [ms[i]] + r[k..];
      i := i + 1;
    }
    assert ms[..i] == ms;
  }

  /** In a sorted list, equal paths would be neighbours. */
  lemma NeighboursDiffer(ms: seq<Mutation>)
    requires SortedByPath(ms) && forall i | 0 < i < |ms| :: ms[i - 1].path != ms[i].path
    ensures DistinctPaths(ms)
  {
    hide Leq;
    forall i, j | 0 <= i < j < |ms|
      ensures ms[i].path != ms[j].path
    {
      assert ms[i + 1 - 1].path != ms[i + 1].path;
      if ms[i].path == ms[j].path {
        LeqTotal(ms[i].path, ms[i].path);
        assert Leq(ms[i].path, ms[i + 1].path) && (i + 1 < j ==> Leq(ms[i + 1].path, ms[j].path));
        LeqAntisymmetric(ms[i].path, ms[i + 1].path);
      }
    }
  }

  /** What the workspace resolves a requested path to, and the largest file it reads. */
  datatype Workspace = Workspace(resolve: map<Path, Path>, maxBytes: nat)

  /** The mutation's file is where and what it was when the mutation was planned. */
  predicate Current(ws: Workspace, nodes: Nodes, m: Mutation) {
    && m.requested in ws.resolve && ws.resolve[m.requested] == m.path
    && Get(nodes, m.path) == m.before && m.before != Some(Directory)
    && (m.before.Some? && m.before.value.Regular? ==> |m.before.value.data| <= ws.maxBytes)
  }

  /** A plan that may be committed: not empty, current, about each path once, and about directories that are not there. */
  ghost predicate Acceptable(ws: Workspace, nodes: Nodes, plan: Plan) {
    && plan.mutations != []
    && (forall m | m in plan.mutations :: Current(ws, nodes, m))
    && DistinctPaths(plan.mutations)
    && (forall d | d in plan.directories :: d in ws.resolve && ws.resolve[d] == d && d !in nodes)
  }

  /** In the plan's own terms: it has a mutation, every file is resolved, unchanged and readable, paths differ, directories are new. */
  lemma AcceptableMeans(ws: Workspace, nodes: Nodes, plan: Plan)
    ensures Acceptable(ws, nodes, plan) <==>
            && |plan.mutations| > 0
            && (forall m | m in plan.mutations ::
                  && m.requested in ws.resolve && ws.resolve[m.requested] == m.path
                  && m.before == (if m.path in nodes then Some(nodes[m.path]) else None) && m.before != Some(Directory)
                  && (m.before.Some? && m.before.value.Regular? ==> |m.before.value.data| <= ws.maxBytes))
            && (forall i, j | 0 <= i < j < |plan.mutations| :: plan.mutations[i].path != plan.mutations[j].path)
            && (forall d | d in plan.directories :: d in ws.resolve && ws.resolve[d] == d && d !in nodes)
  {
  }

  lemma SameMembers<T>(a: seq<T>, b: seq<T>)
    requires multiset(a) == multiset(b)
    ensures |a| == |b| && forall x :: x in a <==> x in b
  {
    assert |multiset(a)| == |a| && |multiset(b)| == |b|;
    assert forall x :: x in a <==> x in multiset(a);
    assert forall x :: x in b <==> x in multiset(b);
  }

  ghost predicate Distinct<T>(s: seq<T>) { forall i, j | 0 <= i < j < |s| :: s[i] != s[j] }

  lemma {:induction false} DistinctCounts<T>(s: seq<T>, x: T)
    requires Distinct(s)
    ensures multiset(s)[x] <= 1
  {
    if s != [] {
      var n := |s| - 1;
      DistinctCounts(s[..n], x);
      assert s == s[..n] + [s[n]];
      assert s[n] !in s[..n];
    }
  }

  lemma CountsDistinct<T>(s: seq<T>)
    requires forall x :: multiset(s)[x] <= 1
    ensures Distinct(s)
  {
    forall i, j | 0 <= i < j < |s|
      ensures s[i] != s[j]
    {
      assert s == s[..j] + s[j..];
      assert s[..j][i] in multiset(s[..j]) && s[j..][0] in multiset(s[j..]);
      assert multiset(s)[s[i]] == multiset(s[..j])[s[i]] + multiset(s[j..])[s[i]] <= 1;
    }
  }

  lemma PermutedDistinct<T>(a: seq<T>, b: seq<T>)
    requires Distinct(a) && multiset(a) == multiset(b)
    ensures Distinct(b)
  {
    forall x
      ensures multiset(b)[x] <= 1
    {
      DistinctCounts(a, x);
    }
    CountsDistinct(b);
  }

  lemma PermutedPaths(a: seq<Mutation>, b: seq<Mutation>)
    requires DistinctPaths(a) && multiset(a) == multiset(b)
    ensures DistinctPaths(b)
  {
    assert forall i, j | 0 <= i < j < |a| :: a[i].path != a[j].path;
    PermutedDistinct(a, b);
    SameMembers(a, b);
    forall i, j | 0 <= i < j < |b|
      ensures b[i].path != b[j].path
    {
      assert b[i] in a && b[j] in a && b[i] != b[j];
    }
  }

  /** A plan that nothing but a failing call keeps from being committed. */
  ghost predicate Feasible(nodes: Nodes, plan: Plan) {
    && AllDifferent(plan.directories) && ParentsThere(nodes, plan.directories)
    && SetOf(plan.directories) !! Paths(plan.mutations)
    && forall m | m in plan.mutations :: PlaceThere(nodes, SetOf(plan.directories), m)
  }

  lemma SortedPlan(ws: Workspace, nodes: Nodes, plan: Plan, ms: seq<Mutation>, ds: seq<Path>)
    requires multiset(ms) == multiset(plan.mutations) && multiset(ds) == multiset(plan.directories)
    ensures Acceptable(ws, nodes, plan) <==> Acceptable(ws, nodes, Plan(ms, ds))
    ensures Paths(ms) == Paths(plan.mutations) && SetOf(ds) == SetOf(plan.directories)
  {
    SameMembers(ms, plan.mutations);
    SameMembers(ds, plan.directories);
    if DistinctPaths(ms) {
      PermutedPaths(ms, plan.mutations);
    }
    if DistinctPaths(plan.mutations) {
      PermutedPaths(plan.mutations, ms);
    }
  }

  lemma SortedFeasible(nodes: Nodes, plan: Plan, ms: seq<Mutation>, ds: seq<Path>)
    requires multiset(ms) == multiset(plan.mutations) && multiset(ds) == multiset(plan.directories) && Feasible(nodes, plan)
    requires Paths(ms) == Paths(plan.mutations) && SetOf(ds) == SetOf(plan.directories)
    ensures Feasible(nodes, Plan(ms, ds))
  {
    SameMembers(ms, plan.mutations);
    SameMembers(ds, plan.directories);
    assert Distinct(plan.directories);
    PermutedDistinct(plan.directories, ds);
    hide PlaceThere;
  }

  /** Every precondition of a plan is checked before anything is touched. */
  method CheckPlan(fs: FileSystem, ws: Workspace, plan: Plan, fault: Fault) returns (ok: bool, ms: seq<Mutation>, ds: seq<Path>)
    ensures ok ==> Acceptable(ws, fs.nodes, plan) && Acceptable(ws, fs.nodes, Plan(ms, ds))
    ensures Acceptable(ws, fs.nodes, plan) && !fault.CanceledCheck? ==> ok
    ensures multiset(ms) == multiset(plan.mutations)
    ensures ok ==> multiset(ds) == multiset(plan.directories) && Ordered(ds, false)
  {
    ms, ds := plan.mutations, plan.directories;
    if |plan.mutations| == 0 {
      return false, ms, ds;
    }
    hide Current, Ordered, DistinctPaths, SortedByPath, Paths, SetOf;
    ms := SortByPath(plan.mutations);
    SortedPlan(ws, fs.nodes, plan, ms, ds);
    SameMembers(ms, plan.mutations);
    var i := 0;
    while i < |ms|
      invariant 0 <= i <= |ms| && forall j | 0 <= j < i :: Current(ws, fs.nodes, ms[j])
    {
      if fault == CanceledCheck(i) || !Current(ws, fs.nodes, ms[i]) {
        return false, ms, ds;
      }
      i := i + 1;
    }
    i := 1;
    while i < |ms|
      invariant 1 <= i <= |ms| && forall j | 0 < j < i :: ms[j - 1].path != ms[j].path
    {
      if ms[i - 1].path == ms[i].path {
        Twins(ms, i);
        return false, ms, ds;
      }
      i := i + 1;
    }
    NeighboursDiffer(ms);
    ds := SortByDepth(plan.directories, false);
    SameMembers(ds, plan.directories);
    SortedPlan(ws, fs.nodes, plan, ms, ds);
    i := 0;
    while i < |ds|
      invariant 0 <= i <= |ds| && forall j | 0 <= j < i :: ds[j] in ws.resolve && ws.resolve[ds[j]] == ds[j] && ds[j] !in fs.nodes
    {
      if !(ds[i] in ws.resolve && ws.resolve[ds[i]] == ds[i]) || ds[i] in fs.nodes {
        return false, ms, ds;
      }
      i := i + 1;
    }
    return true, ms, ds;
  }

  lemma Twins(ms: seq<Mutation>, i: nat)
    requires 0 < i < |ms| && ms[i - 1].path == ms[i].path
    ensures !DistinctPaths(ms)
  {
  }

  // ---------------------------------------------------------------------------
  // The commit
  // ---------------------------------------------------------------------------

  /** Every path of the plan holds what its mutation says, every new directory is there, and all else is as it was. */
  ghost predicate Committed(base: Nodes, nodes: Nodes, plan: Plan) {
    && (forall m | m in plan.mutations :: Get(nodes, m.path) == AfterNode(m))
    && (forall d | d in plan.directories && d !in Paths(plan.mutations) :: Get(nodes, d) == Some(Directory))
    && (forall p | p !in Paths(plan.mutations) && p !in plan.directories :: Get(nodes, p) == Get(base, p))
  }

  predicate HasSpecialBits(m: Mutation) { m.before.Some? && m.before.value.Regular? && m.before.value.mode.special != 0 }

  /** All is as it was, but files that were changed and restored are left with their permission bits only. */
  ghost predicate RolledBack(base: Nodes, nodes: Nodes, undone: seq<Mutation>) {
    && (forall m | m in undone :: Get(nodes, m.path) == Restored(m))
    && (forall p | p !in Paths(undone) :: Get(nodes, p) == Get(base, p))
  }

  lemma CommittedAt(nodes: Nodes, base: Nodes, over: map<Path, Option<Node>>, ms: seq<Mutation>, ds: seq<Path>, plan: Plan)
    requires At(nodes, base, SetOf(ds), map[], over) && Progress(over, ms, |ms|, |ms|)
    requires multiset(ms) == multiset(plan.mutations) && multiset(ds) == multiset(plan.directories)
    ensures Committed(base, nodes, plan)
  {
    SameMembers(ms, plan.mutations);
    SameMembers(ds, plan.directories);
    hide AfterNode;
    forall m | m in plan.mutations
      ensures Get(nodes, m.path) == AfterNode(m)
    {
      LookAt(nodes, base, SetOf(ds), map[], over, m.path);
      var i :| 0 <= i < |ms| && ms[i] == m;
    }
    forall p | p !in Paths(plan.mutations)
      ensures Get(nodes, p) == if p in plan.directories then Some(Directory) else Get(base, p)
    {
      LookAt(nodes, base, SetOf(ds), map[], over, p);
      NotMutated(over, ms, |ms|, |ms|, p);
    }
  }

  lemma NotMutated(over: map<Path, Option<Node>>, ms: seq<Mutation>, lo: nat, hi: nat, p: Path)
    requires lo <= hi <= |ms| && Progress(over, ms, lo, hi) && p !in Paths(ms[..hi])
    ensures p !in over
  {
    hide AfterNode, Restored;
    forall i | 0 <= i < hi
      ensures ms[i].path in Paths(ms[..hi])
    {
      assert ms[..hi][i] in ms[..hi];
    }
  }

  lemma RolledBackAt(nodes: Nodes, base: Nodes, over: map<Path, Option<Node>>, undone: seq<Mutation>)
    requires At(nodes, base, {}, map[], over) && Progress(over, undone, 0, |undone|)
    ensures RolledBack(base, nodes, undone)
  {
    hide AfterNode, Restored;
    forall m | m in undone
      ensures Get(nodes, m.path) == Restored(m)
    {
      LookAt(nodes, base, {}, map[], over, m.path);
      var i :| 0 <= i < |undone| && undone[i] == m;
    }
    forall p | p !in Paths(undone)
      ensures Get(nodes, p) == Get(base, p)
    {
      LookAt(nodes, base, {}, map[], over, p);
      assert undone[..|undone|] == undone;
      NotMutated(over, undone, 0, |undone|, p);
    }
  }

  /** A rollback restores everything exactly when none of the files it restored had bits beyond its permissions. */
  lemma RestoresAll(base: Nodes, nodes: Nodes, undone: seq<Mutation>)
    requires RolledBack(base, nodes, undone) && Fits(base, undone)
    ensures nodes == base <==> forall m | m in undone :: !HasSpecialBits(m)
  {
    forall m | m in undone
      ensures Get(base, m.path) == m.before && (Restored(m) == m.before <==> !HasSpecialBits(m))
    {
      var i :| 0 <= i < |undone| && undone[i] == m;
    }
    if forall m | m in undone :: !HasSpecialBits(m) {
      forall p
        ensures Get(nodes, p) == Get(base, p)
      {
        if p in Paths(undone) {
          var m :| m in undone && m.path == p;
          assert !HasSpecialBits(m);
        }
      }
      SameEverywhere(nodes, base);
    } else {
      var m :| m in undone && HasSpecialBits(m);
      assert Get(nodes, m.path) != Get(base, m.path);
    }
  }

  lemma RestoredIsOld(over: map<Path, Option<Node>>, base: Nodes, undone: seq<Mutation>)
    requires Progress(over, undone, 0, |undone|) && Fits(base, undone)
    ensures forall p | p in over :: over[p].Some? ==> p in base
  {
    forall p | p in over
      ensures over[p].Some? ==> p in base
    {
      var i :| 0 <= i < |undone| && undone[i].path == p;
    }
  }

  lemma ApartPaths(base: Nodes, created: set<Path>, temps: map<Path, Node>, over: map<Path, Option<Node>>, paths: set<Path>)
    requires Apart(base, created, temps, over, paths)
    ensures WellFormed(base) && forall d | d in created :: d !in base
  {
  }

  /** The way back from any failure: mutations, staged files and directories are undone. */
  method UndoAll(fs: FileSystem, applied: seq<Mutation>, staged: map<Path, Path>, made: seq<Path>, names: (Path, nat) -> Path, first: nat,
                 ghost base: Nodes, ghost temps: map<Path, Node>, ghost over: map<Path, Option<Node>>, ghost paths: set<Path>)
    requires At(fs.nodes, base, SetOf(made), temps, over) && Apart(base, SetOf(made), temps, over, paths) && StagedAs(staged, temps)
    requires Progress(over, applied, |applied|, |applied|) && DistinctPaths(applied) && Fits(base, applied) && Paths(applied) <= paths
    requires FreshNames(names, first, base, SetOf(made), temps, paths)
    modifies fs
    ensures RolledBack(base, fs.nodes, applied)
    ensures fs.nodes == base <==> forall m | m in applied :: !HasSpecialBits(m)
  {
    hide At, Apart, FreshNames, Progress, DistinctPaths, StagedAs, Paths, SetOf, WellFormed, Fits, RolledBack, HasSpecialBits;
    ghost var undone := Rollback(fs, applied, names, first, base, SetOf(made), temps, over, paths);
    DiscardTemps(fs, staged, base, SetOf(made), temps, undone, paths);
    RestoredIsOld(undone, base, applied);
    ApartPaths(base, SetOf(made), map[], undone, paths);
    RemoveDirectories(fs, made, base, SetOf(made), undone);
    RolledBackAt(fs.nodes, base, undone, applied);
    RestoresAll(base, fs.nodes, applied);
  }

  lemma PrefixFacts(base: Nodes, ms: seq<Mutation>, k: nat, over: map<Path, Option<Node>>)
    requires k <= |ms| && DistinctPaths(ms) && Fits(base, ms) && Progress(over, ms, k, k)
    ensures DistinctPaths(ms[..k]) && Fits(base, ms[..k]) && Paths(ms[..k]) <= Paths(ms) && Progress(over, ms[..k], k, k)
  {
    hide AfterNode, Restored;
    assert forall i | 0 <= i < k :: ms[..k][i] == ms[i];
    forall p | p in over
      ensures exists i :: 0 <= i < k && ms[..k][i].path == p
    {
      var i :| 0 <= i < k && ms[i].path == p;
      assert ms[..k][i].path == p;
    }
  }

  lemma AcceptableFacts(ws: Workspace, base: Nodes, ms: seq<Mutation>, ds: seq<Path>)
    requires Acceptable(ws, base, Plan(ms, ds))
    ensures DistinctPaths(ms) && Fits(base, ms) && forall d | d in ds :: d !in base
  {
    forall i | 0 <= i < |ms|
      ensures Get(base, ms[i].path) == ms[i].before && ms[i].before != Some(Directory)
    {
      assert ms[i] in ms && Current(ws, base, ms[i]);
    }
  }

  lemma MadeApart(base: Nodes, ms: seq<Mutation>, ds: seq<Path>, made: nat)
    requires WellFormed(base) && Fits(base, ms) && (forall d | d in ds :: d !in base) && made <= |ds|
    ensures Apart(base, SetOf(ds[..made]), map[], map[], Paths(ms))
  {
    assert forall d | d in ds[..made] :: d in ds;
  }

  lemma NamesForMade(names: (Path, nat) -> Path, base: Nodes, ds: seq<Path>, made: nat, plan: Plan, paths: set<Path>)
    requires FreshNames(names, 0, base, SetOf(plan.directories), map[], paths)
    requires made <= |ds| && multiset(ds) == multiset(plan.directories)
    ensures FreshNames(names, 0, base, SetOf(ds[..made]), map[], paths)
  {
    SameMembers(ds, plan.directories);
    assert forall d | d in ds[..made] :: d in ds;
  }

  lemma StillApart(names: (Path, nat) -> Path, next: nat, base: Nodes, created: set<Path>, temps: map<Path, Node>, rest: map<Path, Node>, paths: set<Path>)
    requires FreshNames(names, next, base, created, temps, paths) && forall t | t in rest :: t in temps
    ensures FreshNames(names, next, base, created, rest, paths)
  {
  }

  lemma FeasibleFacts(base: Nodes, ms: seq<Mutation>, ds: seq<Path>)
    requires Feasible(base, Plan(ms, ds))
    ensures AllDifferent(ds) && ParentsThere(base, ds) && SetOf(ds) !! Paths(ms) && forall m | m in ms :: PlaceThere(base, SetOf(ds), m)
  {
  }

  lemma NothingApplied(base: Nodes, ms: seq<Mutation>)
    ensures DistinctPaths(ms[..0]) && Fits(base, ms[..0]) && Paths(ms[..0]) <= Paths(ms) && Progress(map[], ms[..0], 0, 0)
    ensures StagedAs(map[], map[])
  {
  }

  lemma NotWhileApplying()
    ensures !FaultIn(NoFault) && !FaultIn(SyncFault)
  {
  }

  /** The checked plan is carried out. */
  method CarryOut(fs: FileSystem, ms: seq<Mutation>, ds: seq<Path>, names: (Path, nat) -> Path, fault: Fault) returns (ok: bool, ghost undone: nat)
    requires WellFormed(fs.nodes) && DistinctPaths(ms) && Fits(fs.nodes, ms) && (forall d | d in ds :: d !in fs.nodes) && Ordered(ds, false)
    requires forall made | 0 <= made <= |ds| :: FreshNames(names, 0, fs.nodes, SetOf(ds[..made]), map[], Paths(ms))
    modifies fs
    ensures undone <= |ms|
    ensures ok ==> exists over :: At(fs.nodes, old(fs.nodes), SetOf(ds), map[], over) && Progress(over, ms, |ms|, |ms|)
    ensures !ok ==> RolledBack(old(fs.nodes), fs.nodes, ms[..undone])
    ensures !ok ==> (fs.nodes == old(fs.nodes) <==> forall m | m in ms[..undone] :: !HasSpecialBits(m))
    ensures Feasible(old(fs.nodes), Plan(ms, ds)) && fault == NoFault ==> ok
    ensures Feasible(old(fs.nodes), Plan(ms, ds)) && fault == SyncFault ==> !ok && undone == |ms|
  {
    hide *;
    ghost var base, paths := fs.nodes, Paths(ms);
    if Feasible(base, Plan(ms, ds)) {
      FeasibleFacts(base, ms, ds);
    }
    NothingApplied(base, ms);
    NotWhileApplying();
    var made;
    ok, made := MakeDirectories(fs, ds, fault);
    var created := ds[..made];
    MadeApart(base, ms, ds, made);
    if !ok {
      UndoAll(fs, ms[..0], map[], created, names, 0, base, map[], map[], paths);
      return false, 0;
    }
    assert created == ds;
    var staged, next;
    ghost var temps;
    ok, staged, next, temps := StageAll(fs, ms, names, fault, base, SetOf(created));
    if !ok {
      UndoAll(fs, ms[..0], staged, created, names, next, base, temps, map[], paths);
      return false, 0;
    }
    var applied, left;
    ghost var rest, over;
    ok, applied, left, rest, over := ApplyAll(fs, ms, staged, fault, base, SetOf(created), temps);
    if !ok || fault == SyncFault {
      PrefixFacts(base, ms, applied, over);
      StillApart(names, next, base, SetOf(created), temps, rest, paths);
      UndoAll(fs, ms[..applied], left, created, names, next, base, rest, over, paths);
      return false, applied;
    }
    return true, |ms|;
  }

  /**
   * Committing a plan is all or nothing. On success exactly the planned paths and directories changed. On a failure of
   * any call, or a cancellation, every path, directory and temporary file is as before, except that a file that was
   * changed and restored keeps its permission bits only: set-user-ID, set-group-ID and sticky bits are lost.
   */
  method CommitPlan(fs: FileSystem, ws: Workspace, plan: Plan, names: (Path, nat) -> Path, fault: Fault) returns (ok: bool, ghost undone: seq<Mutation>)
    requires WellFormed(fs.nodes)
    requires FreshNames(names, 0, fs.nodes, SetOf(plan.directories), map[], Paths(plan.mutations))
    modifies fs
    ensures ok ==> Acceptable(ws, old(fs.nodes), plan) && Committed(old(fs.nodes), fs.nodes, plan)
    ensures forall m | ok && m in plan.mutations ::
              if m.after.None? then m.path !in fs.nodes
              else m.path in fs.nodes && fs.nodes[m.path] == Regular(m.after.value.data, Mode(m.after.value.mode.perm, 0))
    ensures forall m | ok && m in plan.mutations :: Get(old(fs.nodes), m.path) == m.before
    ensures !ok ==> RolledBack(old(fs.nodes), fs.nodes, undone) && multiset(undone) <= multiset(plan.mutations)
    ensures !ok ==> (fs.nodes == old(fs.nodes) <==> forall m | m in undone :: !HasSpecialBits(m))
    ensures !Acceptable(ws, old(fs.nodes), plan) ==> !ok && undone == []
    ensures Acceptable(ws, old(fs.nodes), plan) && Feasible(old(fs.nodes), plan) && fault == NoFault ==> ok
    ensures Acceptable(ws, old(fs.nodes), plan) && Feasible(old(fs.nodes), plan) && fault == SyncFault ==>
              !ok && multiset(undone) == multiset(plan.mutations)
  {
    hide *;
    ghost var base := fs.nodes;
    var ms, ds;
    ok, ms, ds := CheckPlan(fs, ws, plan, fault);
    undone := [];
    if !ok {
      NothingUndone(base);
      return;
    }
    SortedPlan(ws, base, plan, ms, ds);
    AcceptableFacts(ws, base, ms, ds);
    forall made | 0 <= made <= |ds|
      ensures FreshNames(names, 0, base, SetOf(ds[..made]), map[], Paths(ms))
    {
      NamesForMade(names, base, ds, made, plan, Paths(ms));
    }
    if Feasible(base, plan) {
      SortedFeasible(base, plan, ms, ds);
    }
    ghost var count;
    ok, count := CarryOut(fs, ms, ds, names, fault);
    undone := ms[..count];
    assert ms == ms[..count] + ms[count..];
    assert count == |ms| ==> ms[..count] == ms;
    if ok {
      ghost var over :| At(fs.nodes, base, SetOf(ds), map[], over) && Progress(over, ms, |ms|, |ms|);
      CommittedAt(fs.nodes, base, over, ms, ds, plan);
      CommittedMeans(ws, base, fs.nodes, plan);
    }
  }

  /** What a committed plan leaves at its paths, and what was there. */
  lemma CommittedMeans(ws: Workspace, base: Nodes, nodes: Nodes, plan: Plan)
    requires Acceptable(ws, base, plan) && Committed(base, nodes, plan)
    ensures forall m | m in plan.mutations ::
              && Get(base, m.path) == m.before
              && if m.after.None? then m.path !in nodes
                 else m.path in nodes && nodes[m.path] == Regular(m.after.value.data, Mode(m.after.value.mode.perm, 0))
  {
    forall m | m in plan.mutations
      ensures Current(ws, base, m) && Get(nodes, m.path) == AfterNode(m)
    {
    }
  }

  lemma NothingUndone(base: Nodes)
    ensures RolledBack(base, base, [])
  {
  }
}
