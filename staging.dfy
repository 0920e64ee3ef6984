/**
 * The deployment staging policy of `createDeploymentFolder`
 * (deployments/utils.js): every changed file is copied into the `deploy`
 * folder, and files the org needs deployed together with it are pulled in:
 * the whole directory of a Lightning (lwc) or Aura component bundle, the
 * `-meta.xml` descriptor of a primary file, and the primary file of a
 * descriptor. Every copy is `cp -n`: an existing staged file is never
 * overwritten.
 *
 * The working tree is a map from relative path to file content (a path is
 * in it exactly when `shell.test('-f', path)` holds); the staging folder
 * is a map from the staged path (`deploy/...`) to its content.
 */
module Staging {
  import opened Text

  type Path = string
  type Bytes = seq<bv8>
  type Tree = map<Path, Bytes>

  const DeployFolder: string := "deploy"
  const MetaSuffix: string := "-meta.xml"
  const LwcBundles: string := "force-app/main/default/lwc/"
  const AuraBundles: string := "force-app/main/default/aura/"

  /** Where a file of the working tree is staged: `deploy/<path>`. */
  function DeployPath(p: Path): (d: Path)
    ensures |d| == |DeployFolder| + 1 + |p|
    ensures d[..|DeployFolder| + 1] == DeployFolder + "/" && d[|DeployFolder| + 1..] == p
  {
    DeployFolder + "/" + p
  }

  predicate IsDeployPath(d: Path) {
    IsPrefix(DeployFolder + "/", d)
  }

  /** The working-tree path a staged path was copied from. */
  function SourcePath(d: Path): Path
    requires IsDeployPath(d)
  {
    d[|DeployFolder| + 1..]
  }

  lemma DeployPathRoundTrip(p: Path, d: Path)
    ensures IsDeployPath(DeployPath(p)) && SourcePath(DeployPath(p)) == p
    ensures IsDeployPath(d) ==> DeployPath(SourcePath(d)) == d
  {
    if IsDeployPath(d) {
      assert d == d[..|DeployFolder| + 1] + d[|DeployFolder| + 1..];
    }
  }

  /** A file of an lwc or Aura component bundle. */
  predicate IsBundleFile(f: Path) {
    Contains(f, LwcBundles) || Contains(f, AuraBundles)
  }

  /** A `-meta.xml` descriptor. */
  predicate IsMetaFile(f: Path) {
    Contains(f, MetaSuffix)
  }

  /** The primary file of a descriptor: the path before the first `-meta.xml`. */
  function PrimaryOf(f: Path): Path {
    BeforeFirst(f, MetaSuffix)
  }

  /** A name `shell.ls` leaves out of a listing unless asked for all names: one starting with '.'. */
  predicate IsHidden(name: string) {
    |name| > 0 && name[0] == '.'
  }

  /** `p` is a file `shell.ls(dir)` lists: directly in `dir`, and not hidden. */
  predicate ListedIn(p: Path, dir: Path) {
    '/' in p && Dirname(p) == dir && !IsHidden(Basename(p))
  }

  /** The files of the working tree that `shell.ls(dir)` lists (bundles being flat). */
  function Siblings(tree: Tree, dir: Path): set<Path> {
    set p | p in tree && ListedIn(p, dir)
  }

  /** `cp -n p deploy/p`: copies a file that exists into a place not yet taken. */
  function Copy(tree: Tree, staged: map<Path, Bytes>, p: Path): map<Path, Bytes> {
    if p in tree && DeployPath(p) !in staged then staged[DeployPath(p) := tree[p]] else staged
  }

  /** `cp -n` of every file in `ps` to its place under `deploy/`. */
  function CopyAll(tree: Tree, staged: map<Path, Bytes>, ps: set<Path>): map<Path, Bytes> {
    staged + map p | p in ps && p in tree && DeployPath(p) !in staged :: DeployPath(p) := tree[p]
  }

  /** What staging one changed file `f` does to the folder (one iteration of the `forEach`). */
  function StageOne(tree: Tree, changes: seq<Path>, staged: map<Path, Bytes>, f: Path): map<Path, Bytes> {
    var afterFile := Copy(tree, staged, f);
    if IsBundleFile(f) then
      CopyAll(tree, afterFile, Siblings(tree, Dirname(f)))
    else if !IsMetaFile(f) then
      if f + MetaSuffix in tree && f + MetaSuffix !in changes then Copy(tree, afterFile, f + MetaSuffix)
      else afterFile
    else
      var primary := PrimaryOf(f);
      if primary in tree && primary !in changes then Copy(tree, afterFile, primary)
      else afterFile
  }

  /** The folder after staging the files `done` of the change list `changes`, in order. */
  function StageSeq(tree: Tree, changes: seq<Path>, staged: map<Path, Bytes>, done: seq<Path>): map<Path, Bytes>
    decreases |done|
  {
    if done == [] then staged
    else StageOne(tree, changes, StageSeq(tree, changes, staged, done[..|done| - 1]), done[|done| - 1])
  }

  /**
   * The files staging `f` copies by itself, given the change list: `f`,
   * and then by the bundle rule its directory, or by the descriptor rule
   * its descriptor, or by the primary rule its primary file, the last two
   * only when that file is not itself in the change list.
   */
  predicate Direct(changes: seq<Path>, f: Path, p: Path) {
    || p == f
    || (IsBundleFile(f) && ListedIn(p, Dirname(f)))
    || (!IsBundleFile(f) && !IsMetaFile(f) && p == f + MetaSuffix && p !in changes)
    || (!IsBundleFile(f) && IsMetaFile(f) && p == PrimaryOf(f) && p !in changes)
  }

  /**
   * The staging policy stated without reference to the change list's
   * order: a changed file `f` requires `p` to be deployed with it when `p`
   * is `f`, a listed file of `f`'s bundle directory, `f`'s descriptor (`f` not in
   * a bundle and not a descriptor) or `f`'s primary file (`f` a descriptor
   * outside a bundle).
   */
  predicate Pulls(f: Path, p: Path) {
    || p == f
    || (IsBundleFile(f) && ListedIn(p, Dirname(f)))
    || (!IsBundleFile(f) && !IsMetaFile(f) && p == f + MetaSuffix)
    || (!IsBundleFile(f) && IsMetaFile(f) && p == PrimaryOf(f))
  }

  /** The files of the tree that staging `f` copies by itself. */
  function DirectFiles(tree: Tree, changes: seq<Path>, f: Path): set<Path> {
    set p | p in tree && Direct(changes, f, p)
  }

  /** The files of the tree that staging the files `done` copies by themselves. */
  function DirectFilesOf(tree: Tree, changes: seq<Path>, done: seq<Path>): set<Path> {
    set p | p in tree && exists f :: f in done && Direct(changes, f, p)
  }

  /** The files of the tree the change list requires to be deployed. */
  function Pulled(tree: Tree, changes: seq<Path>): set<Path> {
    set p | p in tree && exists f :: f in changes && Pulls(f, p)
  }

  /**
   * `CopyAll` keeps every staged entry, adds only entries under `deploy/`
   * holding the working-tree content of a file of `ps`, and adds one for
   * every file of `ps` that exists.
   */
  lemma CopyAllEffect(tree: Tree, staged: map<Path, Bytes>, ps: set<Path>)
    ensures var r := CopyAll(tree, staged, ps);
      && (forall k :: k in staged ==> k in r && r[k] == staged[k])
      && (forall k :: k in r && k !in staged ==>
            IsDeployPath(k) && SourcePath(k) in ps && SourcePath(k) in tree && r[k] == tree[SourcePath(k)])
      && (forall p :: p in ps && p in tree ==> DeployPath(p) in r)
  {
    var r := CopyAll(tree, staged, ps);
    forall k | k in r && k !in staged
      ensures IsDeployPath(k) && SourcePath(k) in ps && SourcePath(k) in tree && r[k] == tree[SourcePath(k)]
    {
      var p :| p in ps && p in tree && DeployPath(p) !in staged && DeployPath(p) == k;
      DeployPathRoundTrip(p, k);
    }
  }

  /** A single `cp -n` is `CopyAll` of one file. */
  lemma CopyIsCopyAll(tree: Tree, staged: map<Path, Bytes>, p: Path)
    ensures Copy(tree, staged, p) == CopyAll(tree, staged, {p})
  {
  }

  /** Copying `a` and then `b` is copying both at once. */
  lemma CopyAllTwice(tree: Tree, staged: map<Path, Bytes>, a: set<Path>, b: set<Path>)
    ensures CopyAll(tree, CopyAll(tree, staged, a), b) == CopyAll(tree, staged, a + b)
  {
    var m := CopyAll(tree, staged, a);
    var l := CopyAll(tree, m, b);
    var r := CopyAll(tree, staged, a + b);
    CopyAllEffect(tree, staged, a);
    CopyAllEffect(tree, m, b);
    CopyAllEffect(tree, staged, a + b);
    forall k | k in l
      ensures k in r && l[k] == r[k]
    {
      if k !in staged {
        DeployPathRoundTrip(SourcePath(k), k);
      }
    }
    forall k | k in r
      ensures k in l
    {
      if k !in staged {
        DeployPathRoundTrip(SourcePath(k), k);
      }
    }
    assert l.Keys == r.Keys;
  }

  /** Only the files of `ps` that exist matter to `CopyAll`. */
  lemma CopyAllSameFiles(tree: Tree, staged: map<Path, Bytes>, a: set<Path>, b: set<Path>)
    requires forall p :: p in tree ==> (p in a <==> p in b)
    ensures CopyAll(tree, staged, a) == CopyAll(tree, staged, b)
  {
    var l := CopyAll(tree, staged, a);
    var r := CopyAll(tree, staged, b);
    CopyAllEffect(tree, staged, a);
    CopyAllEffect(tree, staged, b);
    forall k | k in l
      ensures k in r && l[k] == r[k]
    {
      if k !in staged {
        DeployPathRoundTrip(SourcePath(k), k);
      }
    }
    forall k | k in r
      ensures k in l
    {
      if k !in staged {
        DeployPathRoundTrip(SourcePath(k), k);
      }
    }
    assert l.Keys == r.Keys;
  }

  lemma BundleDirectFiles(tree: Tree, changes: seq<Path>, f: Path)
    requires IsBundleFile(f)
    ensures forall p | p in tree :: p in {f} + Siblings(tree, Dirname(f)) <==> p in DirectFiles(tree, changes, f)
  {
  }

  lemma StageBundleFileCopies(tree: Tree, changes: seq<Path>, staged: map<Path, Bytes>, f: Path)
    requires IsBundleFile(f)
    ensures StageOne(tree, changes, staged, f) == CopyAll(tree, staged, DirectFiles(tree, changes, f))
  {
    var sib := Siblings(tree, Dirname(f));
    var afterFile := Copy(tree, staged, f);
    assert StageOne(tree, changes, staged, f) == CopyAll(tree, afterFile, sib);
    CopyIsCopyAll(tree, staged, f);
    CopyAllTwice(tree, staged, {f}, sib);
    assert CopyAll(tree, afterFile, sib) == CopyAll(tree, staged, {f} + sib);
    BundleDirectFiles(tree, changes, f);
    CopyAllSameFiles(tree, staged, {f} + sib, DirectFiles(tree, changes, f));
  }

  lemma StagePrimaryFileCopies(tree: Tree, changes: seq<Path>, staged: map<Path, Bytes>, f: Path)
    requires !IsBundleFile(f) && !IsMetaFile(f)
    ensures StageOne(tree, changes, staged, f) == CopyAll(tree, staged, DirectFiles(tree, changes, f))
  {
    var meta := f + MetaSuffix;
    var extra: set<Path> := if meta in tree && meta !in changes then {meta} else {};
    CopyIsCopyAll(tree, staged, f);
    CopyIsCopyAll(tree, Copy(tree, staged, f), meta);
    CopyAllTwice(tree, staged, {f}, {meta});
    forall p | p in tree
      ensures p in {f} + extra <==> p in DirectFiles(tree, changes, f)
    {
    }
    CopyAllSameFiles(tree, staged, {f} + extra, DirectFiles(tree, changes, f));
    assert {f} + {} == {f};
  }

  lemma StageMetaFileCopies(tree: Tree, changes: seq<Path>, staged: map<Path, Bytes>, f: Path)
    requires !IsBundleFile(f) && IsMetaFile(f)
    ensures StageOne(tree, changes, staged, f) == CopyAll(tree, staged, DirectFiles(tree, changes, f))
  {
    var primary := PrimaryOf(f);
    var extra: set<Path> := if primary in tree && primary !in changes then {primary} else {};
    CopyIsCopyAll(tree, staged, f);
    CopyIsCopyAll(tree, Copy(tree, staged, f), primary);
    CopyAllTwice(tree, staged, {f}, {primary});
    forall p | p in tree
      ensures p in {f} + extra <==> p in DirectFiles(tree, changes, f)
    {
    }
    CopyAllSameFiles(tree, staged, {f} + extra, DirectFiles(tree, changes, f));
    assert {f} + {} == {f};
  }

  /** Staging one file is copying exactly the files it pulls in directly. */
  lemma StageOneCopies(tree: Tree, changes: seq<Path>, staged: map<Path, Bytes>, f: Path)
    ensures StageOne(tree, changes, staged, f) == CopyAll(tree, staged, DirectFiles(tree, changes, f))
  {
    if IsBundleFile(f) {
      StageBundleFileCopies(tree, changes, staged, f);
    } else if !IsMetaFile(f) {
      StagePrimaryFileCopies(tree, changes, staged, f);
    } else {
      StageMetaFileCopies(tree, changes, staged, f);
    }
  }

  /** Staging the files `done` in order is copying every file they pull in directly. */
  lemma {:induction false} StageSeqCopies(tree: Tree, changes: seq<Path>, staged: map<Path, Bytes>, done: seq<Path>)
    ensures StageSeq(tree, changes, staged, done) == CopyAll(tree, staged, DirectFilesOf(tree, changes, done))
    decreases |done|
  {
    if done == [] {
      assert DirectFilesOf(tree, changes, done) == {};
    } else {
      var init, last := done[..|done| - 1], done[|done| - 1];
      StageSeqCopies(tree, changes, staged, init);
      StageOneCopies(tree, changes, StageSeq(tree, changes, staged, init), last);
      CopyAllTwice(tree, staged, DirectFilesOf(tree, changes, init), DirectFiles(tree, changes, last));
      assert done == init + [last];
      forall p | p in tree
        ensures p in DirectFilesOf(tree, changes, init) + DirectFiles(tree, changes, last)
            <==> p in DirectFilesOf(tree, changes, done)
      {
        if p in DirectFilesOf(tree, changes, done) {
          var f :| f in done && Direct(changes, f, p);
          if f != last {
            assert f in init;
          }
        }
      }
      CopyAllSameFiles(tree, staged, DirectFilesOf(tree, changes, init) + DirectFiles(tree, changes, last),
                       DirectFilesOf(tree, changes, done));
    }
  }

  /**
   * The staging policy, whole: staging a change list copies exactly the
   * existing files the list pulls in (`Pulled`). The guards "not itself in
   * the change list" of the descriptor and primary rules change nothing
   * in the result: a file they skip is copied when its own turn comes.
   */
  lemma StagePolicy(tree: Tree, changes: seq<Path>, staged: map<Path, Bytes>)
    ensures StageSeq(tree, changes, staged, changes) == CopyAll(tree, staged, Pulled(tree, changes))
  {
    StageSeqCopies(tree, changes, staged, changes);
    forall p | p in tree
      ensures p in DirectFilesOf(tree, changes, changes) <==> p in Pulled(tree, changes)
    {
      if p in Pulled(tree, changes) {
        var f :| f in changes && Pulls(f, p);
        if !Direct(changes, f, p) {
          assert p in changes && Direct(changes, p, p);
        }
      }
    }
    CopyAllSameFiles(tree, staged, DirectFilesOf(tree, changes, changes), Pulled(tree, changes));
  }

  /** The staged result of a whole change list. */
  function Staged(tree: Tree, changes: seq<Path>, staged: map<Path, Bytes>): map<Path, Bytes> {
    StageSeq(tree, changes, staged, changes)
  }

  /** No-clobber: every file already in the folder keeps its content. */
  lemma StageKeepsStaged(tree: Tree, changes: seq<Path>, staged: map<Path, Bytes>)
    ensures forall k :: k in staged ==> k in Staged(tree, changes, staged) && Staged(tree, changes, staged)[k] == staged[k]
  {
    StagePolicy(tree, changes, staged);
    CopyAllEffect(tree, staged, Pulled(tree, changes));
  }

  /**
   * Staging only adds entries under `deploy/`, each holding the content of
   * the working-tree file it names, and only for files some changed file
   * pulls in.
   */
  lemma StageAddsOnlyPulled(tree: Tree, changes: seq<Path>, staged: map<Path, Bytes>)
    ensures var r := Staged(tree, changes, staged);
      forall k :: k in r && k !in staged ==>
        && IsDeployPath(k) && SourcePath(k) in tree && r[k] == tree[SourcePath(k)]
        && exists f :: f in changes && Pulls(f, SourcePath(k))
  {
    StagePolicy(tree, changes, staged);
    CopyAllEffect(tree, staged, Pulled(tree, changes));
  }

  /** Every changed file that exists is staged at `deploy/` followed by its path. */
  lemma StageChangedFiles(tree: Tree, changes: seq<Path>, staged: map<Path, Bytes>)
    ensures forall f :: f in changes && f in tree ==> DeployPath(f) in Staged(tree, changes, staged)
  {
    StagePolicy(tree, changes, staged);
    CopyAllEffect(tree, staged, Pulled(tree, changes));
    forall f | f in changes && f in tree
      ensures f in Pulled(tree, changes)
    {
      assert Pulls(f, f);
    }
  }

  /** Bundle rule: for a changed lwc or Aura file, every file `ls` lists in its directory is staged. */
  lemma StageBundles(tree: Tree, changes: seq<Path>, staged: map<Path, Bytes>)
    ensures forall f, p :: f in changes && IsBundleFile(f) && p in Siblings(tree, Dirname(f)) ==>
              DeployPath(p) in Staged(tree, changes, staged)
  {
    StagePolicy(tree, changes, staged);
    CopyAllEffect(tree, staged, Pulled(tree, changes));
    forall f, p | f in changes && IsBundleFile(f) && p in Siblings(tree, Dirname(f))
      ensures p in Pulled(tree, changes)
    {
      assert Pulls(f, p);
    }
  }

  /** Descriptor rule: a changed primary file outside a bundle brings its existing `-meta.xml`. */
  lemma StageDescriptors(tree: Tree, changes: seq<Path>, staged: map<Path, Bytes>)
    ensures forall f :: f in changes && !IsBundleFile(f) && !IsMetaFile(f) && f + MetaSuffix in tree ==>
              DeployPath(f + MetaSuffix) in Staged(tree, changes, staged)
  {
    StagePolicy(tree, changes, staged);
    CopyAllEffect(tree, staged, Pulled(tree, changes));
    forall f | f in changes && !IsBundleFile(f) && !IsMetaFile(f) && f + MetaSuffix in tree
      ensures f + MetaSuffix in Pulled(tree, changes)
    {
      assert Pulls(f, f + MetaSuffix);
    }
  }

  /** Primary rule: a changed descriptor outside a bundle brings its existing primary file. */
  lemma StagePrimaries(tree: Tree, changes: seq<Path>, staged: map<Path, Bytes>)
    ensures forall f :: f in changes && !IsBundleFile(f) && IsMetaFile(f) && PrimaryOf(f) in tree ==>
              DeployPath(PrimaryOf(f)) in Staged(tree, changes, staged)
  {
    StagePolicy(tree, changes, staged);
    CopyAllEffect(tree, staged, Pulled(tree, changes));
    forall f | f in changes && !IsBundleFile(f) && IsMetaFile(f) && PrimaryOf(f) in tree
      ensures PrimaryOf(f) in Pulled(tree, changes)
    {
      assert Pulls(f, PrimaryOf(f));
    }
  }

  /** A file with `-meta.xml` appended names a bundle only when the file itself does. */
  lemma MetaOfBundleIsBundle(f: Path)
    ensures IsBundleFile(f + MetaSuffix) ==> IsBundleFile(f)
  {
    ContainsAppend(f, MetaSuffix, LwcBundles);
    ContainsAppend(f, MetaSuffix, AuraBundles);
  }

  /**
   * A hidden file of a bundle directory (a name starting with '.') is
   * staged only when it is changed itself: `shell.ls` does not list it, so
   * the bundle rule never copies it, and no other rule names it.
   */
  lemma StageSkipsHidden(tree: Tree, changes: seq<Path>, staged: map<Path, Bytes>, p: Path)
    requires '/' in p && IsBundleFile(p) && IsHidden(Basename(p))
    requires p !in changes && DeployPath(p) !in staged
    ensures DeployPath(p) !in Staged(tree, changes, staged)
  {
    forall f | f in changes
      ensures !Pulls(f, p)
    {
      MetaOfBundleIsBundle(f);
      ContainsPrefix(PrimaryOf(f), f, LwcBundles);
      ContainsPrefix(PrimaryOf(f), f, AuraBundles);
    }
    StagePolicy(tree, changes, staged);
    CopyAllEffect(tree, staged, Pulled(tree, changes));
    DeployPathRoundTrip(p, DeployPath(p));
  }

  /** The folder does not depend on the order of the change list, nor on repeated entries. */
  lemma StageOrderIndependent(tree: Tree, changes1: seq<Path>, changes2: seq<Path>, staged: map<Path, Bytes>)
    requires forall f :: f in changes1 <==> f in changes2
    ensures Staged(tree, changes1, staged) == Staged(tree, changes2, staged)
  {
    StagePolicy(tree, changes1, staged);
    StagePolicy(tree, changes2, staged);
    assert Pulled(tree, changes1) == Pulled(tree, changes2);
  }

  /** Staging the same change list again into the staged folder changes nothing. */
  lemma StageIdempotent(tree: Tree, changes: seq<Path>, staged: map<Path, Bytes>)
    ensures Staged(tree, changes, Staged(tree, changes, staged)) == Staged(tree, changes, staged)
  {
    var pulled := Pulled(tree, changes);
    StagePolicy(tree, changes, staged);
    StagePolicy(tree, changes, Staged(tree, changes, staged));
    CopyAllTwice(tree, staged, pulled, pulled);
    assert pulled + pulled == pulled;
  }

  /** The files of the tree in directory `dir`, by name (`shell.ls(dir)`). */
  function Ls(tree: Tree, dir: Path): set<string> {
    set p | p in Siblings(tree, dir) :: Basename(p)
  }

  /** The paths `dir/name` of the given names. */
  ghost function InDir(dir: Path, names: set<string>): set<Path> {
    set n | n in names :: dir + "/" + n
  }

  /** Listing a directory and joining each name back to it gives the directory's files. */
  lemma LsInDir(tree: Tree, dir: Path)
    ensures forall p :: p in tree ==> (p in InDir(dir, Ls(tree, dir)) <==> p in Siblings(tree, dir))
  {
    forall p | p in tree
      ensures p in InDir(dir, Ls(tree, dir)) <==> p in Siblings(tree, dir)
    {
      if p in Siblings(tree, dir) {
        DirnameBasename(p);
        assert Basename(p) in Ls(tree, dir);
      }
      if p in InDir(dir, Ls(tree, dir)) {
        var n :| n in Ls(tree, dir) && p == dir + "/" + n;
        var q :| q in Siblings(tree, dir) && n == Basename(q);
        DirnameBasename(q);
      }
    }
  }

  /** One more name of the bundle listing copied is one more `cp -n`. */
  lemma CopyInDirStep(tree: Tree, staged: map<Path, Bytes>, dir: Path, all: set<string>, names: set<string>, name: string)
    requires name in names && names <= all
    ensures CopyAll(tree, staged, InDir(dir, all - (names - {name})))
         == Copy(tree, CopyAll(tree, staged, InDir(dir, all - names)), dir + "/" + name)
  {
    var done := InDir(dir, all - names);
    CopyIsCopyAll(tree, CopyAll(tree, staged, done), dir + "/" + name);
    CopyAllTwice(tree, staged, done, {dir + "/" + name});
    assert done + {dir + "/" + name} == InDir(dir, all - (names - {name}));
  }

  /**
   * The `deploy` folder being built, over a fixed working tree. Staging
   * changes only the folder.
   */
  class StagingFolder {
    const tree: Tree
    var staged: map<Path, Bytes>

    /** An empty folder over the working tree `tree`. */
    constructor (tree: Tree)
      ensures this.tree == tree && staged == map[]
    {
      this.tree := tree;
      staged := map[];
    }

    /** `shell.cp('-rn', src, dst)`: copies `src` if it exists, never over an existing `dst`. */
    method CopyNoClobber(src: Path, dst: Path)
      modifies this
      ensures staged == if src in tree && dst !in old(staged) then old(staged)[dst := tree[src]] else old(staged)
    {
      if src in tree && dst !in staged {
        staged := staged[dst := tree[src]];
      }
    }

    /** The bundle rule: copies every file of directory `dir` not yet staged. */
    method CopyBundle(dir: Path)
      modifies this
      ensures staged == CopyAll(tree, old(staged), Siblings(tree, dir))
    {
      var names := Ls(tree, dir);
      while names != {}
        invariant names <= Ls(tree, dir)
        invariant staged == CopyAll(tree, old(staged), InDir(dir, Ls(tree, dir) - names))
        decreases names
      {
        var name :| name in names;
        var original := dir + "/" + name;
        var target := DeployFolder + "/" + original;
        if target !in staged {
          CopyNoClobber(original, target);
        }
        CopyInDirStep(tree, old(staged), dir, Ls(tree, dir), names, name);
        names := names - {name};
      }
      assert Ls(tree, dir) - {} == Ls(tree, dir);
      LsInDir(tree, dir);
      CopyAllSameFiles(tree, old(staged), InDir(dir, Ls(tree, dir)), Siblings(tree, dir));
    }

    /** Stages one changed file and whatever its rule pulls in. */
    method StageFile(changes: seq<Path>, file: Path)
      modifies this
      ensures staged == StageOne(tree, changes, old(staged), file)
    {
      var location := DeployFolder + "/" + file;
      CopyNoClobber(file, location);
      if IsBundleFile(file) {
        CopyBundle(Dirname(file));
      } else if !IsMetaFile(file) {
        if file + MetaSuffix in tree && file + MetaSuffix !in changes {
          assert location + MetaSuffix == DeployPath(file + MetaSuffix);
          CopyNoClobber(file + MetaSuffix, location + MetaSuffix);
        }
      } else {
        var primary := PrimaryOf(file);
        if primary in tree && primary !in changes {
          CopyNoClobber(primary, DeployFolder + "/" + primary);
        }
      }
    }

    /**
     * `createDeploymentFolder`: stages every file of the change list in
     * order. The folder afterwards holds exactly what it held before plus
     * the existing files the change list pulls in.
     */
    method Stage(changes: seq<Path>)
      modifies this
      ensures staged == Staged(tree, changes, old(staged))
      ensures staged == CopyAll(tree, old(staged), Pulled(tree, changes))
    {
      var i := 0;
      while i < |changes|
        invariant 0 <= i <= |changes|
        invariant staged == StageSeq(tree, changes, old(staged), changes[..i])
      {
        StageFile(changes, changes[i]);
        assert changes[..i + 1][..i] == changes[..i];
        i := i + 1;
      }
      assert changes[..|changes|] == changes;
      StagePolicy(tree, changes, old(staged));
    }
  }
}
