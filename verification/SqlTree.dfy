/** Multi-step updates of a SQL directory, where every step may fail. */
module SqlTree {
  import opened Wrappers

  /** A relative path as its components; the registered root is the empty path. */
  type Path = seq<string>

  datatype Node = Directory | File(contents: string)

  type Tree = map<Path, Node>

  const MAX_TEXT_CONTENT_BYTES: nat := 16 * 1024 * 1024

  /** Every node except the root lies in a directory. */
  ghost predicate WellFormed(t: Tree) {
    && [] in t && t[[]].Directory?
    && forall p :: p in t && p != [] ==> Parent(p) in t && t[Parent(p)].Directory?
  }

  function Parent(p: Path): Path
    requires p != []
  {
    p[..|p| - 1]
  }

  function Leaf(p: Path): string
    requires p != []
  {
    p[|p| - 1]
  }

  // ---------------------------------------------------------------- moving subtrees

  lemma {:induction false} PathLaws(p: Path, name: string)
    ensures Parent(p + [name]) == p && Leaf(p + [name]) == name
    ensures p != [] ==> Parent(p) + [Leaf(p)] == p
  {
  }

  /** What is left when a subtree is taken out. */
  lemma {:induction false} AtWithout(t: Tree, p: Path, q: Path)
    ensures q in Without(t, p) <==> q in t && !(|p| <= |q| && q[..|p|] == p)
    ensures q in Without(t, p) ==> Without(t, p)[q] == t[q]
  {
    PrefixIsTake(p, q);
  }

  /** The nodes at and below `p`, by their path relative to `p`. */
  function Subtree(t: Tree, p: Path): Tree {
    var below := set q | q in t && p <= q :: q[|p|..];
    map r | r in below && p + r in t :: t[p + r]
  }

  function Without(t: Tree, p: Path): Tree {
    map q | q in t && !(p <= q) :: t[q]
  }

  /** `t` with `sub` put at `p`, replacing whatever was there. */
  function Graft(t: Tree, p: Path, sub: Tree): Tree {
    var placed := set r | r in sub :: p + r;
    Without(t, p) + map q | q in placed && q[|p|..] in sub :: sub[q[|p|..]]
  }

  function Moved(t: Tree, src: Path, dst: Path): Tree {
    Graft(Without(t, src), dst, Subtree(t, src))
  }

  ghost predicate Nothing(t: Tree, p: Path) {
    forall q :: q in t ==> !(p <= q)
  }

  predicate Apart(a: Path, b: Path) {
    !(a <= b) && !(b <= a)
  }

  lemma {:induction false} AtSubtree(t: Tree, p: Path, r: Path)
    ensures r in Subtree(t, p) <==> p + r in t
    ensures p + r in t ==> Subtree(t, p)[r] == t[p + r]
  {
    if p + r in t {
      assert p <= p + r && (p + r)[|p|..] == r;
    }
  }

  lemma {:induction false} AtGraft(t: Tree, p: Path, sub: Tree, q: Path)
    ensures q in Graft(t, p, sub) <==> if p <= q then q[|p|..] in sub else q in t
    ensures q in Graft(t, p, sub) ==> Graft(t, p, sub)[q] == if p <= q then sub[q[|p|..]] else t[q]
  {
    if p <= q {
      assert p + q[|p|..] == q;
    } else {
      forall r | r in sub ensures p + r != q { assert p <= p + r; }
    }
  }

  /** Where each node of a moved tree comes from. */
  lemma {:induction false} AtMoved(t: Tree, src: Path, dst: Path, q: Path)
    ensures q in Moved(t, src, dst) <==>
            if dst <= q then src + q[|dst|..] in t else q in t && !(src <= q)
    ensures q in Moved(t, src, dst) ==>
            Moved(t, src, dst)[q] == if dst <= q then t[src + q[|dst|..]] else t[q]
  {
    hide Graft, Subtree;
    AtGraft(Without(t, src), dst, Subtree(t, src), q);
    if dst <= q { AtSubtree(t, src, q[|dst|..]); }
  }

  /** Moving a subtree to a free place and back restores the tree. */
  lemma {:induction false} MoveBackRestores(t: Tree, a: Path, b: Path)
    requires Nothing(t, b) && Apart(a, b)
    ensures Moved(Moved(t, a, b), b, a) == t
  {
    hide Moved;
    var m := Moved(t, a, b);
    forall q ensures q in Moved(m, b, a) <==> q in t
             ensures q in t ==> Moved(m, b, a)[q] == t[q]
    {
      AtMoved(m, b, a, q);
      AtMoved(t, a, b, q);
      if a <= q {
        var r := q[|a|..];
        assert a + r == q;
        AtMoved(t, a, b, b + r);
        assert b <= b + r && (b + r)[|b|..] == r;
      }
    }
  }

  /** A move takes the whole subtree along and leaves everything else in place. */
  lemma {:induction false} MoveCarriesSubtree(t: Tree, src: Path, dst: Path)
    requires Apart(src, dst)
    ensures Subtree(Moved(t, src, dst), dst) == Subtree(t, src)
    ensures Nothing(Moved(t, src, dst), src)
    ensures Without(Moved(t, src, dst), dst) == Without(Without(t, src), dst)
  {
    hide Moved, Subtree;
    var m := Moved(t, src, dst);
    forall r ensures r in Subtree(m, dst) <==> r in Subtree(t, src)
             ensures r in Subtree(t, src) ==> Subtree(m, dst)[r] == Subtree(t, src)[r]
    {
      AtSubtree(m, dst, r);
      AtSubtree(t, src, r);
      AtMoved(t, src, dst, dst + r);
      assert dst <= dst + r && (dst + r)[|dst|..] == r;
    }
    forall q ensures q in Without(m, dst) <==> q in Without(Without(t, src), dst)
             ensures q in Without(m, dst) ==> Without(m, dst)[q] == Without(Without(t, src), dst)[q]
    {
      AtMoved(t, src, dst, q);
    }
    forall q | q in m ensures !(src <= q) {
      AtMoved(t, src, dst, q);
      if src <= q && dst <= q { PrefixesCompare(src, dst, q); }
    }
  }

  lemma {:induction false} PrefixIsTake(p: Path, q: Path)
    ensures p <= q <==> |p| <= |q| && q[..|p|] == p
  {
  }

  lemma {:induction false} PrefixTrans(a: Path, b: Path, q: Path)
    requires a <= b
    ensures b <= q ==> a <= q
  {
  }

  lemma {:induction false} PrefixesCompare(a: Path, b: Path, q: Path)
    requires a <= q && b <= q
    ensures a <= b || b <= a
  {
    assert a == q[..|a|] && b == q[..|b|];
  }

  /** In a well-formed tree nothing hangs below a path that is not there. */
  lemma {:induction false} NothingBelowMissing(t: Tree, p: Path)
    requires WellFormed(t) && p !in t
    ensures Nothing(t, p)
  {
    forall q | q in t ensures !(p <= q) {
      AncestorsPresent(t, q, |p|);
      PrefixIsTake(p, q);
    }
  }

  lemma {:induction false} AncestorsPresent(t: Tree, q: Path, n: nat)
    requires WellFormed(t) && q in t
    ensures n <= |q| ==> q[..n] in t
    decreases |q|
  {
    if n == |q| {
      assert q[..n] == q;
    } else if n < |q| {
      AncestorsPresent(t, Parent(q), n);
      assert Parent(q)[..n] == q[..n];
    }
  }

  // ---------------------------------------------------------------- single steps

  predicate IsDirectory(t: Tree, p: Path) {
    p in t && t[p].Directory?
  }

  function TryCreateDir(t: Tree, p: Path, fault: bool): (bool, Tree) {
    if !fault && p != [] && p !in t && IsDirectory(t, Parent(p)) then (true, t[p := Directory]) else (false, t)
  }

  function TryCreateFile(t: Tree, p: Path, fault: bool): (bool, Tree) {
    if !fault && p != [] && p !in t && IsDirectory(t, Parent(p)) then (true, t[p := File("")]) else (false, t)
  }

  /** `rename`: a file may replace a file; nothing moves into itself. */
  function TryRename(t: Tree, src: Path, dst: Path, fault: bool): (bool, Tree) {
    if !fault && src in t && src != [] && dst != [] && IsDirectory(t, Parent(dst)) && !(src <= dst)
       && (dst !in t || (t[src].File? && t[dst].File?))
    then (true, Moved(t, src, dst)) else (false, t)
  }

  predicate IsEmptyDirectory(t: Tree, p: Path) {
    IsDirectory(t, p) && forall q :: q in t && p <= q ==> q == p
  }

  function TryRemoveDir(t: Tree, p: Path, fault: bool): (bool, Tree) {
    if !fault && IsEmptyDirectory(t, p) then (true, t - {p}) else (false, t)
  }

  function TryRemoveFile(t: Tree, p: Path, fault: bool): (bool, Tree) {
    if !fault && p in t && t[p].File? then (true, t - {p}) else (false, t)
  }

  // ---------------------------------------------------------------- staged delete

  /** Which steps of a delete fail for reasons of their own. */
  datatype DeleteFaults = DeleteFaults(
    inspect: bool, create: bool, stage: bool, unstage: bool, syncStaged: bool, trash: bool, restore: bool,
    removeStaging: bool, syncRemoved: bool, list: bool)

  /** Nothing happened to `t` except that an empty staging directory may have been left. */
  predicate LeavesStaging(t: Tree, t': Tree, staging: Path) {
    t' == t || t' == t[staging := Directory]
  }

  /** Where a delete leaves the subtree: in place, staged, or in the Trash. */
  datatype Place = InPlace | Staged | Trashed

  /** Where the failing steps leave a deletable subtree. */
  function FinalPlace(f: DeleteFaults): Place {
    if f.inspect || f.create || f.stage then InPlace
    else if f.syncStaged || (f.trash && f.restore) then Staged
    else if f.trash then InPlace
    else Trashed
  }

  /** The same, said place by place. */
  predicate PlaceInPlainTerms(f: DeleteFaults, place: Place) {
    && (place == Staged <==>
          !f.inspect && !f.create && !f.stage && (f.syncStaged || (f.trash && f.restore)))
    && (place == Trashed <==> !f.inspect && !f.create && !f.stage && !f.syncStaged && !f.trash)
    && (place == InPlace <==>
          f.inspect || f.create || f.stage || (!f.syncStaged && f.trash && !f.restore))
  }

  lemma {:induction false} PlacesInPlainTerms(f: DeleteFaults)
    ensures PlaceInPlainTerms(f, FinalPlace(f))
  {
  }

  /** Whether they leave the staging directory behind. */
  predicate LeavesStagingBehind(f: DeleteFaults) {
    FinalPlace(f).Staged? || (!f.inspect && !f.create && if f.stage then f.unstage else f.removeStaging)
  }

  ghost predicate LeftAt(t: Tree, x: seq<Tree>, t': Tree, x': seq<Tree>, target: Path, staging: Path, place: Place)
    requires target != []
  {
    match place
    case InPlace => x' == x && LeavesStaging(t, t', staging)
    case Staged => x' == x && t' == Moved(t[staging := Directory], target, staging + [Leaf(target)])
    case Trashed => x' == x + [Subtree(t, target)] && LeavesStaging(Without(t, target), t', staging)
  }

  /** What moving the staged subtree back does: the tree with only the staging directory added. */
  lemma {:induction false} UnstageRestores(t: Tree, target: Path, staging: Path)
    requires WellFormed(t) && target != [] && target in t && staging != [] && staging !in t
    requires staging == Parent(target) + [Leaf(staging)]
    ensures var staged := staging + [Leaf(target)];
            var t1 := t[staging := Directory];
            && Apart(target, staged) && Nothing(t1, staged) && !(target <= staged) && !(staged <= target)
            && Moved(Moved(t1, target, staged), staged, target) == t1
  {
    hide Moved;
    var staged := staging + [Leaf(target)];
    var t1 := t[staging := Directory];
    NothingBelowMissing(t, staging);
    assert |staging| == |target| && staging != target;
    PrefixIsTake(target, staged);
    assert staged[..|target|] == staging;
    assert Apart(target, staged);
    forall q | q in t1 ensures !(staged <= q) {
      PrefixTrans(staging, staged, q);
      assert |staged| > |staging|;
    }
    MoveBackRestores(t1, target, staged);
  }

  lemma {:induction false} SubtreeIgnoresStaging(t: Tree, target: Path, staging: Path)
    requires !(target <= staging)
    ensures Subtree(t[staging := Directory], target) == Subtree(t, target)
    ensures Without(t[staging := Directory], target) == Without(t, target)[staging := Directory]
  {
    hide Subtree;
    forall r ensures r in Subtree(t[staging := Directory], target) <==> r in Subtree(t, target)
             ensures r in Subtree(t, target) ==> Subtree(t[staging := Directory], target)[r] == Subtree(t, target)[r]
    {
      AtSubtree(t[staging := Directory], target, r);
      AtSubtree(t, target, r);
      assert target <= target + r;
    }
  }

  /** After the staged subtree is taken to the Trash only the empty staging directory is left of it. */
  lemma {:induction false} TrashTakesSubtree(t: Tree, target: Path, staging: Path)
    requires WellFormed(t) && target != [] && target in t && staging != [] && staging !in t
    requires staging == Parent(target) + [Leaf(staging)]
    ensures var staged := staging + [Leaf(target)];
            var m := Moved(t[staging := Directory], target, staged);
            && staged in m
            && Subtree(m, staged) == Subtree(t, target)
            && Without(m, staged) == Without(t, target)[staging := Directory]
            && IsEmptyDirectory(Without(m, staged), staging)
            && Without(m, staged) - {staging} == Without(t, target)
  {
    hide Moved, Subtree;
    var staged := staging + [Leaf(target)];
    var t1 := t[staging := Directory];
    UnstageRestores(t, target, staging);
    assert !(target <= staging) by { assert |staging| == |target| && staging != target; }
    SubtreeIgnoresStaging(t, target, staging);
    MoveCarriesSubtree(t1, target, staged);
    AtMoved(t1, target, staged, staged);
    assert target + staged[|staged|..] == target;
    assert Without(Without(t1, target), staged) == Without(t1, target);
    NothingBelowMissing(t, staging);
  }

  /** Which steps of an atomic write fail; `write` carries what had been written by then. `inspectMissing` is the
      inspection that a new file's name is free, `inspect` the second one, just before the rename. */
  datatype WriteFaults = WriteFaults(
    inspectParent: bool, inspectMissing: bool, create: bool, write: Option<string>, syncFile: bool, inspect: bool,
    rename: bool, cleanup: bool, syncRoot: bool)

  function Temporary(target: Path, name: string): Path
    requires target != []
  {
    Parent(target) + [name]
  }

  /** The write gets as far as its temporary file. */
  predicate Begins(t: Tree, target: Path, contents: string, replace: bool, temporaryName: string, f: WriteFaults)
    requires target != []
  {
    && |contents| <= MAX_TEXT_CONTENT_BYTES
    && IsDirectory(t, Parent(target)) && !f.inspectParent
    && (!replace ==> target !in t && !f.inspectMissing)
    && Temporary(target, temporaryName) !in t && !f.create
  }

  /** The write gets as far as its rename, and that succeeds. A second inspection that fails stops only a
      replacement: for a new file it counts as "not there". */
  predicate Commits(t: Tree, target: Path, contents: string, replace: bool, temporaryName: string, f: WriteFaults)
    requires target != []
  {
    && Begins(t, target, contents, replace, temporaryName, f)
    && f.write.None? && !f.syncFile && !f.rename
    && (replace ==> target in t && t[target].File? && !f.inspect)
  }

  /** Renaming a fresh file over a free or regular target writes the target and nothing else;
      removing it instead restores the tree. */
  lemma {:induction false} WriteSteps(t: Tree, target: Path, temporary: Path, x: string, rename: bool, cleanup: bool)
    requires WellFormed(t) && temporary != [] && temporary !in t && IsDirectory(t, Parent(temporary))
    requires target != [] && temporary != target && Parent(temporary) == Parent(target)
    ensures var t1 := t[temporary := File(x)];
            && WellFormed(t1)
            && TryRemoveFile(t1, temporary, cleanup) == (if cleanup then (false, t1) else (true, t))
            && ((target in t ==> t[target].File?) ==>
                  && WellFormed(t[target := File(x)])
                  && TryRename(t1, temporary, target, rename) ==
                     if rename then (false, t1) else (true, t[target := File(x)]))
  {
    hide Moved, WellFormed;
    AddedWellFormed(t, temporary, File(x));
    assert t[temporary := File(x)] - {temporary} == t;
    if target in t ==> t[target].File? {
      AddedWellFormed(t, target, File(x));
      SiblingsApart(temporary, target);
      FreshFileMoves(t, target, temporary, x);
    }
  }

  lemma {:induction false} SiblingsApart(a: Path, b: Path)
    requires a != [] && b != [] && a != b && Parent(a) == Parent(b)
    ensures Apart(a, b)
  {
    assert |a| == |b|;
  }

  lemma {:induction false} NothingBelowFile(t: Tree, p: Path, q: Path)
    requires WellFormed(t) && (p !in t || t[p].File?) && q in t && p <= q
    ensures q == p
    decreases |q|
  {
    if q != p {
      ParentPrefix(p, q);
      NothingBelowFile(t, p, Parent(q));
    }
  }

  lemma {:induction false} FreshFileMoves(t: Tree, target: Path, temporary: Path, contents: string)
    requires WellFormed(t) && temporary != [] && temporary !in t && target != [] && Apart(temporary, target)
    requires target in t ==> t[target].File?
    ensures Moved(t[temporary := File(contents)], temporary, target) == t[target := File(contents)]
  {
    hide Moved, WellFormed;
    var t1 := t[temporary := File(contents)];
    var m := Moved(t1, temporary, target);
    NothingBelowMissing(t, temporary);
    forall q ensures q in m <==> q == target || q in t
             ensures q in m ==> m[q] == if q == target then File(contents) else t[q]
    {
      AtMoved(t1, temporary, target, q);
      if target <= q {
        var r := q[|target|..];
        assert temporary <= temporary + r;
        if r == [] {
          assert q == target && temporary + r == temporary;
        } else {
          assert temporary + r != temporary;
          if q in t { NothingBelowFile(t, target, q); }
        }
      } else {
        assert q != target;
        assert q == temporary ==> temporary <= q;
      }
    }
  }

  /** Which steps of a rename fail. */
  datatype RenameFaults = RenameFaults(inspect: bool, inspectMissing: bool, rename: bool, sync: bool, list: bool)

  /** Renaming back to the old name undoes a rename. */
  lemma {:induction false} RenameIsReversible(t: Tree, source: Path, name: string)
    requires WellFormed(t) && source != [] && source in t
    requires Parent(source) + [name] !in t
    ensures var target := Parent(source) + [name];
            && Moved(Moved(t, source, target), target, source) == t
            && Subtree(Moved(t, source, target), target) == Subtree(t, source)
            && source !in Moved(t, source, target)
  {
    hide Moved, Subtree;
    var target := Parent(source) + [name];
    assert Parent(target) == Parent(source);
    SiblingsApart(source, target);
    NothingBelowMissing(t, target);
    MoveBackRestores(t, source, target);
    MoveCarriesSubtree(t, source, target);
    assert source <= source;
  }

  class SqlDirectory {
    var tree: Tree
    var trash: seq<Tree>
    const supported: string -> bool

    constructor (supported: string -> bool)
      ensures tree == map[[] := Directory] && trash == [] && this.supported == supported
    {
      tree, trash, this.supported := map[[] := Directory], [], supported;
    }

    /** What a delete accepts: a directory or a supported file, and a staging name that is free. */
    predicate Deletable(target: Path, stagingName: string)
      reads this
    {
      && target != [] && target in tree && (tree[target].File? ==> supported(Leaf(target)))
      && Parent(target) + [stagingName] !in tree
    }

    /** `delete_child_with`: stage beside the target, hand over to the Trash, roll back when
        that fails. Whatever fails, the subtree is in exactly one place and nothing else moved. */
    method DeleteChild(target: Path, stagingName: string, f: DeleteFaults) returns (ok: bool, ghost place: Place)
      requires WellFormed(tree)
      modifies this
      ensures WellFormed(tree)
      ensures !old(Deletable(target, stagingName)) ==> !ok && tree == old(tree) && trash == old(trash)
      ensures target != [] && target in old(tree) ==>
                LeftAt(old(tree), old(trash), tree, trash, target, Parent(target) + [stagingName], place)
      ensures old(Deletable(target, stagingName)) ==>
                && place == FinalPlace(f)
                && (Parent(target) + [stagingName] in tree <==> LeavesStagingBehind(f))
                && (ok <==> place.Trashed? && !f.removeStaging && !f.syncRemoved && !f.list)
      ensures ok ==> tree == Without(old(tree), target)
      ensures (&& target != [] && target in old(tree)
               && (old(tree)[target].Directory? || supported(Leaf(target)))
               && Parent(target) + [stagingName] !in old(tree)) ==> PlaceInPlainTerms(f, place)
      ensures target != [] && target in old(tree) && old(tree)[target].File? && !supported(Leaf(target)) ==>
                !ok && tree == old(tree) && trash == old(trash)
    {
      hide Moved, Subtree, Without, TryRename, TryRemoveDir, WellFormed, LeftAt, PlaceInPlainTerms;
      PlacesInPlainTerms(f);
      place := InPlace;
      NothingDone(tree, trash, target, stagingName);
      if target == [] || target !in tree || f.inspect { return false, place; }
      if tree[target].File? && !supported(Leaf(target)) { return false, place; }
      var staging := Parent(target) + [stagingName];
      ParentIsDirectory(tree, target);
      var (created, t1) := TryCreateDir(tree, staging, f.create);
      if !created { return false, place; }
      StagesOrNot(tree, target, staging, f.stage, f.unstage);
      ghost var t0 := tree;
      tree := t1;
      var staged := staging + [Leaf(target)];
      var (moved, t2) := TryRename(tree, target, staged, f.stage);
      if !moved {
        var (_, t3) := TryRemoveDir(tree, staging, f.unstage);
        tree := t3;
        return false, place;
      }
      tree, place := t2, Staged;
      if f.syncStaged { return false, place; }
      ok, place := TrashStaged(t0, target, staging, f);
    }

    /** The rest of a delete, once the subtree is staged: hand it over, or move it back. `t` is the tree before. */
    method TrashStaged(ghost t: Tree, target: Path, staging: Path, f: DeleteFaults)
      returns (ok: bool, ghost place: Place)
      requires WellFormed(t) && target != [] && target in t && staging != [] && staging !in t
      requires staging == Parent(target) + [Leaf(staging)]
      requires tree == Moved(t[staging := Directory], target, staging + [Leaf(target)])
      modifies this
      ensures WellFormed(tree)
      ensures place == if !f.trash then Trashed else if f.restore then Staged else InPlace
      ensures LeftAt(t, old(trash), tree, trash, target, staging, place)
      ensures staging in tree <==> place.Staged? || f.removeStaging
      ensures ok <==> place.Trashed? && !f.removeStaging && !f.syncRemoved && !f.list
      ensures ok ==> tree == Without(t, target)
    {
      hide Moved, Subtree, Without, TryRename, TryRemoveDir, WellFormed;
      StagingSteps(t, target, staging);
      PlacesWellFormed(t, target, staging);
      StagingPresent(t, target, staging);
      var staged := staging + [Leaf(target)];
      place := Staged;
      if f.trash {
        var (restored, t4) := TryRename(tree, staged, target, f.restore);
        tree := t4;
        if restored { place := InPlace; }
        var (_, t5) := TryRemoveDir(tree, staging, f.removeStaging);
        tree := t5;
        return false, place;
      }
      trash := trash + [Subtree(tree, staged)];
      tree, place := Without(tree, staged), Trashed;
      var (removed, t6) := TryRemoveDir(tree, staging, f.removeStaging);
      tree := t6;
      if !removed || f.syncRemoved || f.list { return false, place; }
      return true, place;
    }

    /** `atomic_write_in_root`: write a temporary file beside the target, then rename it over.
        The target holds its old or its new contents, never anything else, and nothing but a
        temporary file can be left behind. Callers name a file with a supported text extension,
        which the temporary name does not have. */
    method AtomicWrite(target: Path, contents: string, replace: bool, temporaryName: string, f: WriteFaults)
      returns (ok: bool)
      requires WellFormed(tree) && target != [] && temporaryName != Leaf(target)
      modifies this`tree
      ensures WellFormed(tree)
      ensures ok <==> Commits(old(tree), target, contents, replace, temporaryName, f) && !f.syncRoot
      ensures tree ==
              if Commits(old(tree), target, contents, replace, temporaryName, f)
              then old(tree)[target := File(contents)]
              else if Begins(old(tree), target, contents, replace, temporaryName, f) && f.cleanup then
                old(tree)[Temporary(target, temporaryName) := File(if f.write.Some? then f.write.value else contents)]
              else old(tree)
      ensures ok ==>
                && |contents| <= 16777216
                && Parent(target) in old(tree) && old(tree)[Parent(target)] == Directory
                && tree == old(tree)[target := File(contents)]
                && (!replace ==> target !in old(tree))
                && (replace ==> target in old(tree) && old(tree)[target].File?)
      ensures && |contents| <= 16777216
              && Parent(target) in old(tree) && old(tree)[Parent(target)] == Directory
              && Parent(target) + [temporaryName] !in old(tree)
              && (!replace ==> target !in old(tree))
              && (replace ==> target in old(tree) && old(tree)[target].File?)
              && f == WriteFaults(false, false, false, None, false, false, false, false, false)
              ==> ok
      ensures forall q :: q != target && q != Parent(target) + [temporaryName] ==>
                (q in tree <==> q in old(tree)) && (q in tree ==> tree[q] == old(tree)[q])
    {
      hide Moved, TryRename, TryRemoveFile, WellFormed;
      if |contents| > MAX_TEXT_CONTENT_BYTES { return false; }
      var parent := Parent(target);
      if f.inspectParent || !IsDirectory(tree, parent) { return false; }
      if !replace && (f.inspectMissing || target in tree) { return false; }
      var temporary := parent + [temporaryName];
      var (created, t1) := TryCreateFile(tree, temporary, f.create);
      if !created { return false; }
      var body := if f.write.Some? then f.write.value else contents;
      WriteSteps(tree, target, temporary, body, f.rename, f.cleanup);
      assert t1[temporary := File(body)] == tree[temporary := File(body)];
      tree := t1[temporary := File(body)];
      var written := f.write.None? && !f.syncFile;
      if written && replace {
        if f.inspect || !(target in tree && tree[target].File?) { written := false; }
      } else if written && !f.inspect && target in tree {
        written := false;
      }
      if written {
        var (renamed, t2) := TryRename(tree, temporary, target, f.rename);
        tree, written := t2, renamed;
      }
      if !written {
        var (_, t3) := TryRemoveFile(tree, temporary, f.cleanup);
        tree := t3;
        return false;
      }
      return !f.syncRoot;
    }

    /** `rename_child`: moves the whole subtree to a free sibling name, or changes nothing. `name` is what name
        validation made of the requested one, if it accepted it. */
    method RenameChild(source: Path, name: Option<string>, f: RenameFaults) returns (ok: bool)
      requires WellFormed(tree)
      modifies this`tree
      ensures WellFormed(tree)
      ensures source == [] || source !in old(tree) || f.inspect || name.None? ==> !ok && tree == old(tree)
      ensures source != [] && source in old(tree) && !f.inspect && name.Some? ==>
                var target := Parent(source) + [name.value];
                if target == source then (ok <==> !f.list) && tree == old(tree)
                else if target in old(tree) || f.inspectMissing || f.rename then !ok && tree == old(tree)
                else tree == Moved(old(tree), source, target) && (ok <==> !f.sync && !f.list)
    {
      hide Moved, WellFormed;
      if source == [] || source !in tree || f.inspect || name.None? { return false; }
      var target := Parent(source) + [name.value];
      if target != source {
        if f.inspectMissing || target in tree { return false; }
        ParentIsDirectory(tree, source);
        assert Parent(target) == Parent(source);
        SiblingsApart(source, target);
        MovedWellFormed(tree, source, target);
        var (renamed, t) := TryRename(tree, source, target, f.rename);
        if !renamed { return false; }
        tree := t;
        if f.sync { return false; }
      }
      return !f.list;
    }
  }

  lemma {:induction false} NothingDone(t: Tree, x: seq<Tree>, target: Path, stagingName: string)
    ensures target != [] ==> LeftAt(t, x, t, x, target, Parent(target) + [stagingName], InPlace)
  {
  }

  /** The first half of a delete: the subtree is staged, or the staging directory is the only thing that may be left. */
  lemma {:induction false} StagesOrNot(t: Tree, target: Path, staging: Path, stage: bool, unstage: bool)
    requires WellFormed(t) && target != [] && target in t && staging != [] && staging !in t
    requires staging == Parent(target) + [Leaf(staging)]
    ensures var t1, staged := t[staging := Directory], staging + [Leaf(target)];
            var t' := if unstage then t1 else t;
            && TryRename(t1, target, staged, stage) == (!stage, if stage then t1 else Moved(t1, target, staged))
            && TryRemoveDir(t1, staging, unstage) == (!unstage, t')
            && WellFormed(t') && WellFormed(Moved(t1, target, staged))
            && staging in Moved(t1, target, staged)
            && (forall x :: LeftAt(t, x, t', x, target, staging, InPlace))
            && (forall x :: LeftAt(t, x, Moved(t1, target, staged), x, target, staging, Staged))
  {
    hide Moved, Subtree, Without, TryRename, TryRemoveDir, WellFormed;
    StagingSteps(t, target, staging);
    PlacesWellFormed(t, target, staging);
    StagingPresent(t, target, staging);
  }

  /** Which of the places still hold the staging directory. */
  lemma {:induction false} StagingPresent(t: Tree, target: Path, staging: Path)
    requires WellFormed(t) && target != [] && target in t && staging != [] && staging !in t
    requires staging == Parent(target) + [Leaf(staging)]
    ensures staging in Moved(t[staging := Directory], target, staging + [Leaf(target)])
    ensures staging !in Without(t, target)
  {
    hide Moved;
    UnstageRestores(t, target, staging);
    AtMoved(t[staging := Directory], target, staging + [Leaf(target)], staging);
    assert |staging| == |target| && staging != target;
  }

  lemma {:induction false} AddedWellFormed(t: Tree, p: Path, n: Node)
    requires WellFormed(t) && p != [] && IsDirectory(t, Parent(p)) && (p in t ==> t[p].File?)
    ensures WellFormed(t[p := n])
  {
    var t' := t[p := n];
    forall q | q in t' && q != [] ensures Parent(q) in t' && t'[Parent(q)].Directory? {
      if q != p { assert t[Parent(q)].Directory?; }
    }
  }

  lemma {:induction false} CutWellFormed(t: Tree, p: Path)
    requires WellFormed(t) && p != []
    ensures WellFormed(Without(t, p))
  {
    var t' := Without(t, p);
    assert !(p <= []);
    forall q | q in t' && q != [] ensures Parent(q) in t' && t'[Parent(q)].Directory? {
      ParentPrefix(p, q);
    }
  }

  lemma {:induction false} MovedWellFormed(t: Tree, src: Path, dst: Path)
    requires WellFormed(t) && src in t && src != [] && dst != [] && Apart(src, dst) && IsDirectory(t, Parent(dst))
    requires dst in t ==> t[src].File? && t[dst].File?
    ensures WellFormed(Moved(t, src, dst))
  {
    hide Moved;
    var m := Moved(t, src, dst);
    AtMoved(t, src, dst, []);
    assert !(dst <= []) && !(src <= []);
    forall q | q in m && q != [] ensures Parent(q) in m && m[Parent(q)].Directory? {
      AtMoved(t, src, dst, q);
      AtMoved(t, src, dst, Parent(q));
      ParentPrefix(dst, q);
      ParentPrefix(src, q);
      if q == dst {
        assert !(dst <= Parent(q));
        ParentNotBelow(src, dst);
      } else if dst <= q {
        var r := q[|dst|..];
        assert Parent(q)[|dst|..] == Parent(r);
        assert Parent(src + r) == src + Parent(r);
      }
    }
  }

  /** The parent of `q` is below `p` exactly when `q` is properly below it. */
  lemma {:induction false} ParentPrefix(p: Path, q: Path)
    requires q != []
    ensures p <= Parent(q) <==> p <= q && p != q
  {
    PrefixIsTake(p, q);
    PrefixIsTake(p, Parent(q));
    if |p| < |q| { assert Parent(q)[..|p|] == q[..|p|]; }
  }

  lemma {:induction false} ParentNotBelow(src: Path, dst: Path)
    requires dst != [] && Apart(src, dst)
    ensures !(src <= Parent(dst))
  {
    ParentPrefix(src, dst);
  }

  /** Every place a delete can leave the subtree at is a well-formed tree. */
  lemma {:induction false} PlacesWellFormed(t: Tree, target: Path, staging: Path)
    requires WellFormed(t) && target != [] && target in t && staging != [] && staging !in t
    requires staging == Parent(target) + [Leaf(staging)]
    ensures WellFormed(t[staging := Directory])
    ensures WellFormed(Moved(t[staging := Directory], target, staging + [Leaf(target)]))
    ensures WellFormed(Without(t, target)) && WellFormed(Without(t, target)[staging := Directory])
  {
    hide Moved, Without;
    var staged := staging + [Leaf(target)];
    var t1 := t[staging := Directory];
    ParentIsDirectory(t, target);
    assert Parent(staging) == Parent(target) && Parent(staged) == staging;
    AddedWellFormed(t, staging, Directory);
    UnstageRestores(t, target, staging);
    assert staged !in t1;
    MovedWellFormed(t1, target, staged);
    CutWellFormed(t, target);
    assert |staging| == |target| && staging != target;
    SubtreeIgnoresStaging(t, target, staging);
    CutWellFormed(t1, target);
  }

  lemma {:induction false} ParentIsDirectory(t: Tree, p: Path)
    requires WellFormed(t) && p in t && p != []
    ensures IsDirectory(t, Parent(p))
    ensures forall name :: Parent(Parent(p) + [name]) == Parent(p)
  {
  }

  /** What each later step of a delete does once the staging directory exists. */
  lemma {:induction false} StagingSteps(t: Tree, target: Path, staging: Path)
    requires WellFormed(t) && target != [] && target in t && staging != [] && staging !in t
    requires staging == Parent(target) + [Leaf(staging)]
    ensures var staged := staging + [Leaf(target)];
            var t1 := t[staging := Directory];
            var m := Moved(t1, target, staged);
            var gone := Without(t, target)[staging := Directory];
            && (forall f :: TryRename(t1, target, staged, f) == if f then (false, t1) else (true, m))
            && (forall f :: TryRemoveDir(t1, staging, f) == if f then (false, t1) else (true, t))
            && (forall f :: TryRename(m, staged, target, f) == if f then (false, m) else (true, t1))
            && (forall f :: TryRemoveDir(m, staging, f) == (false, m))
            && Subtree(m, staged) == Subtree(t, target) && Without(m, staged) == gone
            && (forall f :: TryRemoveDir(gone, staging, f) == if f then (false, gone) else (true, Without(t, target)))
  {
    hide Moved, Subtree, Without, IsEmptyDirectory;
    var staged := staging + [Leaf(target)];
    UnstageRestores(t, target, staging);
    TrashTakesSubtree(t, target, staging);
    RemovableStaging(t, staging);
    RestoreTarget(t, target, staging);
    StagingIsFull(t, target, staging);
    assert Parent(staged) == staging && staged !in t[staging := Directory];
  }

  lemma {:induction false} RemovableStaging(t: Tree, staging: Path)
    requires WellFormed(t) && staging !in t
    ensures IsEmptyDirectory(t[staging := Directory], staging) && t[staging := Directory] - {staging} == t
  {
    NothingBelowMissing(t, staging);
  }

  /** The rename back is not blocked by anything the delete did. */
  lemma {:induction false} RestoreTarget(t: Tree, target: Path, staging: Path)
    requires WellFormed(t) && target != [] && target in t && staging != [] && staging !in t
    requires staging == Parent(target) + [Leaf(staging)]
    ensures var staged := staging + [Leaf(target)];
            var m := Moved(t[staging := Directory], target, staged);
            && staged in m && target !in m && IsDirectory(m, Parent(target)) && !(staged <= target)
  {
    hide Moved;
    var staged := staging + [Leaf(target)];
    var t1 := t[staging := Directory];
    UnstageRestores(t, target, staging);
    AtMoved(t1, target, staged, staged);
    assert target + staged[|staged|..] == target;
    AtMoved(t1, target, staged, target);
    var p := Parent(target);
    AtMoved(t1, target, staged, p);
    assert |p| < |target| && |p| < |staged|;
  }

  /** While the subtree is staged the staging directory cannot be removed. */
  lemma {:induction false} StagingIsFull(t: Tree, target: Path, staging: Path)
    requires WellFormed(t) && target != [] && target in t && staging != [] && staging !in t
    requires staging == Parent(target) + [Leaf(staging)]
    ensures !IsEmptyDirectory(Moved(t[staging := Directory], target, staging + [Leaf(target)]), staging)
  {
    hide Moved;
    RestoreTarget(t, target, staging);
    var staged := staging + [Leaf(target)];
    assert staging <= staged && staged != staging;
  }

  /** The three places exclude each other, each holds the whole subtree, and the rest of the
      tree is what it was. */
  lemma {:induction false} ExactlyOnePlace(t: Tree, x: seq<Tree>, t': Tree, x': seq<Tree>, target: Path, staging: Path,
                                           place: Place)
    requires WellFormed(t) && target != [] && target in t && staging != [] && staging !in t
    requires staging == Parent(target) + [Leaf(staging)]
    requires LeftAt(t, x, t', x', target, staging, place)
    ensures target in t' <==> place.InPlace?
    ensures staging + [Leaf(target)] in t' <==> place.Staged?
    ensures x' != x <==> place.Trashed?
    ensures place.InPlace? ==> Subtree(t', target) == Subtree(t, target)
    ensures place.Staged? ==> Subtree(t', staging + [Leaf(target)]) == Subtree(t, target)
    ensures place.Trashed? ==> x' == x + [Subtree(t, target)]
    ensures Without(Without(t', target), staging) == Without(t, target)
  {
    hide Moved, Subtree, Without, WellFormed;
    match place
    case InPlace => StillInPlace(t, t', target, staging);
    case Staged =>
      RestoreTarget(t, target, staging);
      TrashTakesSubtree(t, target, staging);
      RestIsKept(t, target, staging);
    case Trashed => GoneFromTree(t, t', target, staging);
  }

  lemma {:induction false} StillInPlace(t: Tree, t': Tree, target: Path, staging: Path)
    requires WellFormed(t) && target != [] && target in t && staging != [] && staging !in t
    requires staging == Parent(target) + [Leaf(staging)] && LeavesStaging(t, t', staging)
    ensures target in t' && staging + [Leaf(target)] !in t' && Subtree(t', target) == Subtree(t, target)
    ensures Without(Without(t', target), staging) == Without(t, target)
  {
    hide Subtree;
    assert !(target <= staging) by { assert |staging| == |target| && staging != target; }
    SubtreeIgnoresStaging(t, target, staging);
    NothingBelowMissing(t, staging);
    assert staging <= staging + [Leaf(target)] && staging + [Leaf(target)] != staging;
    assert Without(Without(t', target), staging) == Without(t, target);
  }

  lemma {:induction false} GoneFromTree(t: Tree, t': Tree, target: Path, staging: Path)
    requires WellFormed(t) && target != [] && target in t && staging != [] && staging !in t
    requires staging == Parent(target) + [Leaf(staging)] && LeavesStaging(Without(t, target), t', staging)
    ensures target !in t' && staging + [Leaf(target)] !in t'
    ensures Without(Without(t', target), staging) == Without(t, target)
  {
    assert !(target <= staging) && target != staging by { assert |staging| == |target| && staging != target; }
    NothingBelowMissing(t, staging);
    assert target <= target && staging <= staging + [Leaf(target)] && staging + [Leaf(target)] != staging;
    assert Without(Without(t', target), staging) == Without(t, target);
  }

  lemma {:induction false} RestIsKept(t: Tree, target: Path, staging: Path)
    requires WellFormed(t) && target != [] && target in t && staging != [] && staging !in t
    requires staging == Parent(target) + [Leaf(staging)]
    ensures var m := Moved(t[staging := Directory], target, staging + [Leaf(target)]);
            Without(Without(m, target), staging) == Without(t, target)
  {
    hide Moved;
    var staged := staging + [Leaf(target)];
    var t1 := t[staging := Directory];
    var m := Moved(t1, target, staged);
    NothingBelowMissing(t, staging);
    forall q ensures q in Without(Without(m, target), staging) <==> q in Without(t, target)
             ensures q in Without(t, target) ==> m[q] == t[q] && q in Without(Without(m, target), staging)
    {
      AtMoved(t1, target, staged, q);
      PrefixTrans(staging, staged, q);
      assert q in t ==> q != staging;
    }
  }
}
