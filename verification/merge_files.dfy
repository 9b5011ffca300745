/** `MergeFiles`: overlaying source directory trees onto one target directory, over a filesystem
    seen as a map from paths to directories and files. */
module FileMerge {
  import opened Base

  /** A path as its list of names; a prefix is an ancestor. */
  type Path = seq<string>

  /** A directory with its permission bits, or a file with its content and permission bits. */
  datatype Node = Dir(mode: int) | File(content: string, mode: int)

  type Tree = map<Path, Node>

  /** `p` is `root` or lies below it. */
  predicate Under(root: Path, p: Path) {
    |root| <= |p| && p[..|root|] == root
  }

  /** Neither directory contains the other. */
  predicate Apart(a: Path, b: Path) {
    !Under(a, b) && !Under(b, a)
  }

  /** The destination paths a walk of `src` writes: `dst` joined with every path relative to `src`. */
  function Targets(n: Tree, src: Path, dst: Path): set<Path> {
    set p | p in n && Under(src, p) :: dst + p[|src|..]
  }

  /** `q` is written by the walk of `src`: it lies below `dst` and its source exists. */
  predicate IsTarget(n: Tree, src: Path, dst: Path, q: Path) {
    Under(dst, q) && src + q[|dst|..] in n
  }

  lemma TargetsIff(n: Tree, src: Path, dst: Path, q: Path)
    ensures q in Targets(n, src, dst) <==> IsTarget(n, src, dst, q)
  {
    if IsTarget(n, src, dst, q) {
      var p := src + q[|dst|..];
      assert Under(src, p) && p[|src|..] == q[|dst|..];
      assert dst + p[|src|..] == q;
    }
    if q in Targets(n, src, dst) {
      var p :| p in n && Under(src, p) && q == dst + p[|src|..];
      assert q[|dst|..] == p[|src|..];
      assert src + q[|dst|..] == p;
    }
  }

  /** The source entry of a target. */
  function SourceOf(n: Tree, src: Path, dst: Path, q: Path): Node
    requires IsTarget(n, src, dst, q)
  {
    n[src + q[|dst|..]]
  }

  /** What the walk leaves at a target: a copied file takes the source's content and mode bits
      (`copyFile`); a directory is created with the source's mode unless one is already there
      (`os.MkdirAll`). */
  function Placed(n: Tree, src: Path, dst: Path, q: Path): (node: Node)
    requires IsTarget(n, src, dst, q)
    ensures SourceOf(n, src, dst, q).File? ==> node == SourceOf(n, src, dst, q)
    ensures SourceOf(n, src, dst, q).Dir? ==> node.Dir?
    ensures SourceOf(n, src, dst, q).Dir? && q in n && n[q].Dir? ==> node == n[q]
    ensures SourceOf(n, src, dst, q).Dir? && q !in n ==> node == Dir(SourceOf(n, src, dst, q).mode)
  {
    var s := SourceOf(n, src, dst, q);
    if s.File? then s
    else if q in n && n[q].Dir? then n[q]
    else Dir(s.mode)
  }

  /** A directory cannot be made where a file is, nor a file written where a directory is. */
  predicate Conflict(n: Tree, src: Path, dst: Path, q: Path)
    requires IsTarget(n, src, dst, q)
  {
    q in n && SourceOf(n, src, dst, q).Dir? != n[q].Dir?
  }

  function ConflictError(n: Tree, src: Path, dst: Path, q: Path): Error
    requires IsTarget(n, src, dst, q)
  {
    if SourceOf(n, src, dst, q).Dir? then NotADirectory(q) else IsADirectory(q)
  }

  /** The tree after the targets in `done` have been written. */
  function OverlaySome(n: Tree, src: Path, dst: Path, done: set<Path>): (m: Tree)
    requires forall q :: q in done ==> IsTarget(n, src, dst, q)
    ensures m.Keys == n.Keys + done
  {
    map q | q in n.Keys + done :: if q in done then Placed(n, src, dst, q) else n[q]
  }

  /** Writing one more target. */
  lemma OverlayStep(n: Tree, src: Path, dst: Path, done: set<Path>, q: Path)
    requires forall t :: t in done ==> IsTarget(n, src, dst, t)
    requires IsTarget(n, src, dst, q)
    ensures OverlaySome(n, src, dst, done)[q := Placed(n, src, dst, q)] == OverlaySome(n, src, dst, done + {q})
  {
  }

  /** Paths outside the written targets keep their entries. */
  lemma OverlaySomeFrame(n: Tree, src: Path, dst: Path, done: set<Path>, all: set<Path>)
    requires forall t :: t in done ==> IsTarget(n, src, dst, t)
    requires done <= all
    ensures forall p :: p !in all ==>
      (p in OverlaySome(n, src, dst, done) <==> p in n) && (p in n ==> OverlaySome(n, src, dst, done)[p] == n[p])
  {
  }

  /** A walk that meets a conflict does not apply. */
  lemma ConflictBlocks(n: Tree, src: Path, dst: Path, q: Path)
    requires IsTarget(n, src, dst, q) && Conflict(n, src, dst, q)
    ensures !Applies(n, src, dst)
  {
    TargetsIff(n, src, dst, q);
  }

  /** The tree after a complete walk of `src`. */
  function Overlay(n: Tree, src: Path, dst: Path): Tree {
    forall q | q in Targets(n, src, dst) ensures IsTarget(n, src, dst, q) {
      TargetsIff(n, src, dst, q);
    }
    OverlaySome(n, src, dst, Targets(n, src, dst))
  }

  /** The walk of `src` succeeds: it exists and no target conflicts. */
  predicate Applies(n: Tree, src: Path, dst: Path) {
    src in n && forall q :: q in Targets(n, src, dst) ==> IsTarget(n, src, dst, q) && !Conflict(n, src, dst, q)
  }

  /** The tree after overlaying every directory in order. */
  function MergeAll(n: Tree, dirs: seq<Path>, dst: Path): Tree {
    if dirs == [] then n
    else Overlay(MergeAll(n, dirs[..|dirs| - 1], dst), dirs[|dirs| - 1], dst)
  }

  /** Every directory's walk succeeds on the tree the previous ones left. */
  predicate MergeSucceeds(n: Tree, dirs: seq<Path>, dst: Path) {
    dirs == []
    || (MergeSucceeds(n, dirs[..|dirs| - 1], dst) && Applies(MergeAll(n, dirs[..|dirs| - 1], dst), dirs[|dirs| - 1], dst))
  }

  /** What lies outside `dst` is untouched by a walk. */
  lemma OverlayFrame(n: Tree, src: Path, dst: Path, p: Path)
    requires !Under(dst, p)
    ensures p in Overlay(n, src, dst) <==> p in n
    ensures p in n ==> Overlay(n, src, dst)[p] == n[p]
  {
    TargetsIff(n, src, dst, p);
  }

  /** What lies outside `dst` is untouched by the whole merge. */
  lemma {:induction false} MergeAllFrame(n: Tree, dirs: seq<Path>, dst: Path, p: Path)
    requires !Under(dst, p)
    ensures p in MergeAll(n, dirs, dst) <==> p in n
    ensures p in n ==> MergeAll(n, dirs, dst)[p] == n[p]
  {
    if dirs != [] {
      MergeAllFrame(n, dirs[..|dirs| - 1], dst, p);
      OverlayFrame(MergeAll(n, dirs[..|dirs| - 1], dst), dirs[|dirs| - 1], dst, p);
    }
  }

  /** A source entry never lies below a destination apart from its source directory. */
  lemma ApartSource(src: Path, dst: Path, rel: Path)
    requires Apart(src, dst)
    ensures !Under(dst, src + rel)
  {
    var p := src + rel;
    assert p[..|src|] == src;
    if |dst| <= |src| {
      assert p[..|dst|] == src[..|dst|];
    }
  }

  /** The last directory, in order, holding the relative path `rel`. */
  function LastSource(n: Tree, dirs: seq<Path>, rel: Path): (k: Option<nat>)
    ensures k.Some? ==> k.value < |dirs| && dirs[k.value] + rel in n
    ensures k.Some? ==> forall j :: k.value < j < |dirs| ==> dirs[j] + rel !in n
    ensures k.None? ==> forall j :: 0 <= j < |dirs| ==> dirs[j] + rel !in n
  {
    if dirs == [] then None
    else if dirs[|dirs| - 1] + rel in n then Some(|dirs| - 1)
    else LastSource(n, dirs[..|dirs| - 1], rel)
  }

  /** Last write wins: after the merge, `dst + rel` holds the file of the last directory that has
      `rel` as a file, a directory if that last entry is a directory, and what it held before if no
      directory has `rel`. */
  lemma {:induction false} MergeLastWriteWins(n: Tree, dirs: seq<Path>, dst: Path, rel: Path)
    requires forall k :: 0 <= k < |dirs| ==> Apart(dirs[k], dst)
    ensures var m := MergeAll(n, dirs, dst);
      var k := LastSource(n, dirs, rel);
      && (k.Some? ==> dst + rel in m)
      && (k.Some? && n[dirs[k.value] + rel].File? ==> m[dst + rel] == n[dirs[k.value] + rel])
      && (k.Some? && n[dirs[k.value] + rel].Dir? ==> m[dst + rel].Dir?)
      && (k.None? ==> (dst + rel in m <==> dst + rel in n))
      && (k.None? && dst + rel in n ==> m[dst + rel] == n[dst + rel])
  {
    if dirs != [] {
      var init := dirs[..|dirs| - 1];
      var src := dirs[|dirs| - 1];
      var q := dst + rel;
      assert forall k :: 0 <= k < |init| ==> init[k] == dirs[k];
      MergeLastWriteWins(n, init, dst, rel);
      var prev := MergeAll(n, init, dst);
      assert q[|dst|..] == rel;
      ApartSource(src, dst, rel);
      MergeAllFrame(n, init, dst, src + rel);
      TargetsIff(prev, src, dst, q);
      if src + rel in n {
        assert IsTarget(prev, src, dst, q);
        assert SourceOf(prev, src, dst, q) == n[src + rel];
      } else {
        assert !IsTarget(prev, src, dst, q);
      }
    }
  }

  /** The filesystem the merger container works on. */
  class FileSystem {
    var nodes: Tree

    constructor (initial: Tree)
      ensures nodes == initial
    {
      nodes := initial;
    }

    /** One `filepath.Walk` of `MergeFiles`: every entry of `src`, visited in an unspecified order,
        is made a directory or copied into `dst`; the first conflict stops the walk. */
    method CopyTree(src: Path, dst: Path) returns (r: Outcome)
      modifies this
      ensures r.Pass? <==> Applies(old(nodes), src, dst)
      ensures r.Pass? ==> nodes == Overlay(old(nodes), src, dst)
      ensures r.Fail? && src !in old(nodes) ==> r.error == PathNotFound(src) && nodes == old(nodes)
      ensures r.Fail? && src in old(nodes) ==>
        exists q :: IsTarget(old(nodes), src, dst, q) && Conflict(old(nodes), src, dst, q)
                    && r.error == ConflictError(old(nodes), src, dst, q)
      ensures forall p :: p !in Targets(old(nodes), src, dst) ==>
        (p in nodes <==> p in old(nodes)) && (p in nodes ==> nodes[p] == old(nodes)[p])
    {
      var snap := nodes;
      if src !in snap {
        return Fail(PathNotFound(src));
      }
      var all := Targets(snap, src, dst);
      forall q | q in all ensures IsTarget(snap, src, dst, q) {
        TargetsIff(snap, src, dst, q);
      }
      var todo := all;
      ghost var done: set<Path> := {};
      while todo != {}
        invariant todo + done == all && todo !! done
        invariant nodes == OverlaySome(snap, src, dst, done)
        invariant forall q :: q in done ==> !Conflict(snap, src, dst, q)
      {
        var q :| q in todo;
        if Conflict(snap, src, dst, q) {
          OverlaySomeFrame(snap, src, dst, done, all);
          ConflictBlocks(snap, src, dst, q);
          return Fail(ConflictError(snap, src, dst, q));
        }
        OverlayStep(snap, src, dst, done, q);
        nodes := nodes[q := Placed(snap, src, dst, q)];
        todo := todo - {q};
        done := done + {q};
      }
      assert done == all;
      OverlaySomeFrame(snap, src, dst, done, all);
      assert Applies(snap, src, dst);
      assert nodes == Overlay(snap, src, dst);
      return Pass;
    }

    /** `MergeFiles`: overlays each directory of `fromDirs` onto `mergeDir` in order and stops at
        the first failure; the directories after it are not walked. */
    method MergeFiles(fromDirs: seq<Path>, mergeDir: Path) returns (r: Outcome, ghost failedAt: nat)
      modifies this
      ensures r.Pass? <==> MergeSucceeds(old(nodes), fromDirs, mergeDir)
      ensures r.Pass? ==> nodes == MergeAll(old(nodes), fromDirs, mergeDir)
      ensures r.Fail? ==> failedAt < |fromDirs|
      ensures r.Fail? && failedAt < |fromDirs| ==>
        var before := MergeAll(old(nodes), fromDirs[..failedAt], mergeDir);
        MergeSucceeds(old(nodes), fromDirs[..failedAt], mergeDir)
        && !Applies(before, fromDirs[failedAt], mergeDir)
        && forall p :: p !in Targets(before, fromDirs[failedAt], mergeDir) ==>
             (p in nodes <==> p in before) && (p in nodes ==> nodes[p] == before[p])
    {
      var i := 0;
      failedAt := 0;
      while i < |fromDirs|
        invariant 0 <= i <= |fromDirs|
        invariant MergeSucceeds(old(nodes), fromDirs[..i], mergeDir)
        invariant nodes == MergeAll(old(nodes), fromDirs[..i], mergeDir)
      {
        assert fromDirs[..i + 1][..i] == fromDirs[..i];
        r := CopyTree(fromDirs[i], mergeDir);
        if r.Fail? {
          failedAt := i;
          SucceedsPrefix(old(nodes), fromDirs, mergeDir, i);
          return;
        }
        i := i + 1;
      }
      assert fromDirs[..i] == fromDirs;
      r := Pass;
    }
  }

  /** A merge that fails at one directory fails as a whole. */
  lemma {:induction false} SucceedsPrefix(n: Tree, dirs: seq<Path>, dst: Path, i: nat)
    requires i < |dirs|
    requires !Applies(MergeAll(n, dirs[..i], dst), dirs[i], dst)
    ensures !MergeSucceeds(n, dirs, dst)
    decreases |dirs|
  {
    if i < |dirs| - 1 {
      var init := dirs[..|dirs| - 1];
      assert init[..i] == dirs[..i] && init[i] == dirs[i];
      SucceedsPrefix(n, init, dst, i);
    } else {
      assert dirs[..|dirs| - 1] == dirs[..i];
    }
  }
}
