/**
  A directory tree as a finite map from relative paths (sequences of entry
  names) to nodes, and the merging copy `shutil.copytree(src, dst,
  ignore=..., dirs_exist_ok=True)` on such trees.
 */
module FileTree {
  import opened Wrappers

  type Name = string
  type Path = seq<Name>

  datatype Node = File(data: seq<bv8>) | Dir

  type Tree = map<Path, Node>

  /** What a tree holds at a path, if anything. */
  function Lookup(t: Tree, p: Path): Option<Node>
  {
    if p in t then Some(t[p]) else None
  }

  /** The directory that holds the entry at `p`. */
  function Parent(p: Path): Path
    requires |p| > 0
  {
    p[..|p| - 1]
  }

  /** Every entry's parent directory is in the tree, as a directory; the
      root itself is not an entry. */
  ghost predicate WellFormed(t: Tree)
  {
    && [] !in t
    && forall p {:trigger Parent(p)} :: |p| > 1 && p in t ==> Parent(p) in t && t[Parent(p)] == Dir
  }

  /** The contents of a directory on disk. */
  type Folder = t: Tree | WellFormed(t) witness map[]

  /** `q` is an ancestor of, or equal to, `p`. */
  predicate IsPrefix(q: Path, p: Path)
  {
    |q| <= |p| && p[..|q|] == q
  }

  /** No component of `p` is one of the ignored names. */
  predicate Kept(p: Path, ignored: set<Name>)
  {
    forall i :: 0 <= i < |p| ==> p[i] !in ignored
  }

  /** The entries of `src` that an `ignore` callback returning `ignored` in
      every visited directory lets through. The result is again a well-formed
      folder: an ignored directory takes its whole subtree with it, so no
      kept entry loses its parent. */
  function Filter(src: Folder, ignored: set<Name>): (r: Folder)
    ensures forall p :: p in r <==> p in src && Kept(p, ignored)
    ensures forall p :: p in r ==> r[p] == src[p]
  {
    var r := map p | p in src && Kept(p, ignored) :: src[p];
    forall p | |p| > 1 && p in r
      ensures Parent(p) in r && r[Parent(p)] == Dir
    {
      assert forall i :: 0 <= i < |Parent(p)| ==> Parent(p)[i] == p[i];
    }
    r
  }

  /** Filtering with nothing ignored keeps the whole folder. */
  lemma FilterNothing(f: Folder)
    ensures Filter(f, {}) == f
  {
    assert Filter(f, {}).Keys == f.Keys;
  }

  /** The directories `os.makedirs(dst)` leaves behind: every non-empty
      prefix of `dst`. */
  function MakeDirs(dst: Path): (r: Tree)
    ensures forall q :: q in r <==> 1 <= |q| && IsPrefix(q, dst)
    ensures forall q :: q in r ==> r[q] == Dir
  {
    var r := map k | 1 <= k <= |dst| :: dst[..k] := Dir;
    assert forall q :: 1 <= |q| && IsPrefix(q, dst) ==> q == dst[..|q|] && q in r;
    r
  }

  /** The entries of `f`, placed under `dst`. */
  function Shift(f: Tree, dst: Path): (r: Tree)
    ensures forall q :: q in r <==> IsPrefix(dst, q) && q[|dst|..] in f
    ensures forall q :: q in r ==> IsPrefix(dst, q) && r[q] == f[q[|dst|..]]
  {
    var keys := set p | p in f :: dst + p;
    assert forall p :: p in f ==> (dst + p)[|dst|..] == p;
    forall q | IsPrefix(dst, q) && q[|dst|..] in f
      ensures q in keys
    {
      assert q == q[..|dst|] + q[|dst|..];
    }
    map q | q in keys :: f[q[|dst|..]]
  }

  /** The entries of the directory that `t` holds at `[n]`, relative to
      that directory. */
  function Below(t: Folder, n: Name): (r: Folder)
    ensures forall p :: p in r <==> p != [] && [n] + p in t
    ensures forall p :: p in r ==> r[p] == t[[n] + p]
  {
    var keys := set q | q in t && |q| > 1 && q[0] == n :: q[1..];
    assert forall p :: ([n] + p)[1..] == p && ([n] + p)[0] == n;
    forall p | p != [] && [n] + p in t
      ensures p in keys
    {
      assert ([n] + p)[1..] == p;
    }
    forall p | p in keys
      ensures [n] + p in t
    {
      var q :| q in t && |q| > 1 && q[0] == n && q[1..] == p;
      assert q == [n] + p;
    }
    var r := map p | p in keys :: t[[n] + p];
    forall p | |p| > 1 && p in r
      ensures Parent(p) in r && r[Parent(p)] == Dir
    {
      assert Parent([n] + p) == [n] + Parent(p);
    }
    r
  }

  /** The source argument of a copy: a directory with its entries, or a
      path that names a regular file. */
  datatype Source = Directory(entries: Folder) | RegularFile

  /** Why a copy raised. */
  datatype Cause =
    | OsError(text: string)          // reported by the operating system
    | NotADirectory                  // the source names a regular file
    | DestinationBlocked(at: set<Path>) // os.makedirs(dst) meets a regular file
    | EntryClashes(at: set<Path>)    // a file and a directory meet at these paths

  /** The text `str(e)` gives for the exception a copy raised. Operating
      system errors carry their own text; for the other three kinds the
      model keeps a short errno-style text. */
  function CauseText(c: Cause): string
  {
    match c
    case OsError(text) => text
    case NotADirectory => "[Errno 20] Not a directory"
    case DestinationBlocked(_) => "[Errno 17] File exists"
    case EntryClashes(_) => "file and directory clash in the destination"
  }

  /** The files among the non-empty prefixes of `dst`. */
  function Blocking(t: Tree, dst: Path): (r: set<Path>)
    ensures forall q :: q in r <==> 1 <= |q| && IsPrefix(q, dst) && q in t && t[q].File?
  {
    var r := set k | 1 <= k <= |dst| && dst[..k] in t && t[dst[..k]].File? :: dst[..k];
    assert forall q :: 1 <= |q| && IsPrefix(q, dst) && q in t && t[q].File? ==> q == dst[..|q|] && q in r;
    r
  }

  /** The destination paths where an entry of `f` and what `t` holds differ
      in kind (file over directory, or directory over file). */
  function Clashes(t: Tree, f: Tree, dst: Path): (r: set<Path>)
    ensures forall p :: p in f && dst + p in t && t[dst + p].File? != f[p].File? ==> dst + p in r
    ensures forall q :: q in r ==> q in t && IsPrefix(dst, q) && q[|dst|..] in f && t[q].File? != f[q[|dst|..]].File?
  {
    assert forall p :: (dst + p)[|dst|..] == p;
    set p | p in f && dst + p in t && t[dst + p].File? != f[p].File? :: dst + p
  }

  /** `shutil.copytree(src, dst, ignore=..., dirs_exist_ok=True)` applied
      to tree `t`, where `fault` is what the operating system raised, if
      anything. A failing copy writes nothing. */
  function CopyTree(t: Tree, src: Source, dst: Path, ignored: set<Name>, fault: Option<string>): Result<Tree, Cause>
  {
    if fault.Some? then Failure(OsError(fault.value))
    else if src.RegularFile? then Failure(NotADirectory)
    else if Blocking(t, dst) != {} then Failure(DestinationBlocked(Blocking(t, dst)))
    else
      var f := Filter(src.entries, ignored);
      if Clashes(t, f, dst) != {} then Failure(EntryClashes(Clashes(t, f, dst)))
      else Success(t + MakeDirs(dst) + Shift(f, dst))
  }

  /** What a successful copy leaves at path `q`: the source entry when `q`
      is a kept entry under `dst`, a directory when `q` is one of the
      directories leading to `dst`, and otherwise what was there before. */
  function CopiedAt(t: Tree, src: Folder, dst: Path, ignored: set<Name>, q: Path): Option<Node>
  {
    if IsPrefix(dst, q) && q[|dst|..] in src && Kept(q[|dst|..], ignored) then Some(src[q[|dst|..]])
    else if 1 <= |q| && IsPrefix(q, dst) then Some(Dir)
    else Lookup(t, q)
  }

  /** A successful copy writes every kept source entry at `dst` followed by
      its relative path, creates the directories leading to `dst`, and
      leaves every other path as it was. */
  lemma CopyTreeAt(t: Tree, src: Folder, dst: Path, ignored: set<Name>, fault: Option<string>, t': Tree, q: Path)
    requires CopyTree(t, Directory(src), dst, ignored, fault) == Success(t')
    ensures Lookup(t', q) == CopiedAt(t, src, dst, ignored, q)
  {
    var f := Filter(src, ignored);
    assert t' == t + MakeDirs(dst) + Shift(f, dst);
    MergedAt(t, f, dst, q);
  }

  /** What the merged tree `t + MakeDirs(dst) + Shift(f, dst)` holds at `q`. */
  lemma MergedAt(t: Tree, f: Tree, dst: Path, q: Path)
    ensures Lookup(t + MakeDirs(dst) + Shift(f, dst), q)
            == if IsPrefix(dst, q) && q[|dst|..] in f then Some(f[q[|dst|..]])
               else if 1 <= |q| && IsPrefix(q, dst) then Some(Dir)
               else Lookup(t, q)
  {
    if IsPrefix(dst, q) && q[|dst|..] in f {
      assert q in Shift(f, dst);
    } else if 1 <= |q| && IsPrefix(q, dst) {
      assert q in MakeDirs(dst);
      assert q !in Shift(f, dst);
    } else {
      assert q !in Shift(f, dst) && q !in MakeDirs(dst);
    }
  }

  /** A successful copy never turns a file into a directory or a directory
      into a file: it only overwrites like with like. */
  lemma CopyTreeKeepsKinds(t: Tree, src: Folder, dst: Path, ignored: set<Name>, fault: Option<string>, t': Tree, q: Path)
    requires CopyTree(t, Directory(src), dst, ignored, fault) == Success(t')
    requires q in t
    ensures q in t' && t'[q].File? == t[q].File?
  {
    CopyTreeAt(t, src, dst, ignored, fault, t', q);
    var f := Filter(src, ignored);
    if IsPrefix(dst, q) && q[|dst|..] in src && Kept(q[|dst|..], ignored) {
      var p := q[|dst|..];
      assert q == dst + p;
      assert p in f;
    }
  }

  /** The parent of a copied source entry is a directory afterwards. */
  lemma ParentOfCopiedEntry(t: Tree, src: Folder, dst: Path, ignored: set<Name>, t': Tree, q: Path)
    requires |q| > 1 && IsPrefix(dst, q) && q[|dst|..] in src && Kept(q[|dst|..], ignored)
    requires Lookup(t', Parent(q)) == CopiedAt(t, src, dst, ignored, Parent(q))
    ensures Parent(q) in t' && t'[Parent(q)] == Dir
  {
    var pq := Parent(q);
    assert pq == q[..|q| - 1];
    var p := q[|dst|..];
    if |p| > 1 {
      assert Parent(p) in src && src[Parent(p)] == Dir;
      assert pq[|dst|..] == Parent(p);
      assert IsPrefix(dst, pq);
    } else {
      assert |p| == 1 by { assert p != []; }
      assert pq == dst;
      assert pq[|dst|..] == [];
    }
  }

  /** The parent of one of the directories leading to `dst` is a directory
      afterwards. */
  lemma ParentOfMadeDirectory(t: Tree, src: Folder, dst: Path, ignored: set<Name>, t': Tree, q: Path)
    requires |q| > 1 && IsPrefix(q, dst)
    requires Lookup(t', Parent(q)) == CopiedAt(t, src, dst, ignored, Parent(q))
    ensures Parent(q) in t' && t'[Parent(q)] == Dir
  {
    var pq := Parent(q);
    assert pq == q[..|q| - 1];
    assert IsPrefix(pq, dst);
    assert !IsPrefix(dst, pq);
  }

  /** The parent of an entry that was already there is still a directory. */
  lemma ParentOfEarlierEntry(t: Tree, src: Folder, dst: Path, ignored: set<Name>, fault: Option<string>, t': Tree, q: Path)
    requires WellFormed(t)
    requires CopyTree(t, Directory(src), dst, ignored, fault) == Success(t')
    requires q in t && |q| > 1
    ensures Parent(q) in t' && t'[Parent(q)] == Dir
  {
    var pq := Parent(q);
    assert pq in t && t[pq] == Dir;
    CopyTreeKeepsKinds(t, src, dst, ignored, fault, t', pq);
  }

  /** The parent of any entry a successful copy leaves is a directory. */
  lemma CopyTreeParent(t: Tree, src: Folder, dst: Path, ignored: set<Name>, fault: Option<string>, t': Tree, q: Path)
    requires WellFormed(t)
    requires CopyTree(t, Directory(src), dst, ignored, fault) == Success(t')
    requires q in t' && |q| > 1
    ensures Parent(q) in t' && t'[Parent(q)] == Dir
  {
    CopyTreeAt(t, src, dst, ignored, fault, t', q);
    CopyTreeAt(t, src, dst, ignored, fault, t', Parent(q));
    if IsPrefix(dst, q) && q[|dst|..] in src && Kept(q[|dst|..], ignored) {
      ParentOfCopiedEntry(t, src, dst, ignored, t', q);
    } else if 1 <= |q| && IsPrefix(q, dst) {
      ParentOfMadeDirectory(t, src, dst, ignored, t', q);
    } else {
      ParentOfEarlierEntry(t, src, dst, ignored, fault, t', q);
    }
  }

  /** A successful copy into a directory tree leaves a directory tree. */
  lemma CopyTreeWellFormed(t: Tree, src: Folder, dst: Path, ignored: set<Name>, fault: Option<string>, t': Tree)
    requires WellFormed(t)
    requires CopyTree(t, Directory(src), dst, ignored, fault) == Success(t')
    ensures WellFormed(t')
  {
    CopyTreeAt(t, src, dst, ignored, fault, t', []);
    forall q | q in t' && |q| > 1
      ensures Parent(q) in t' && t'[Parent(q)] == Dir
    {
      CopyTreeParent(t, src, dst, ignored, fault, t', q);
    }
  }

  /** Trees that agree at every path are equal. */
  lemma LookupExtensional(a: Tree, b: Tree)
    requires forall q :: Lookup(a, q) == Lookup(b, q)
    ensures a == b
  {
    forall q | q in a ensures q in b && a[q] == b[q] {
      assert Lookup(a, q) == Lookup(b, q);
    }
    forall q | q in b ensures q in a {
      assert Lookup(a, q) == Lookup(b, q);
    }
  }

  /** Repeating a successful copy onto its own result succeeds and changes
      nothing: every directory it needs is there and every entry it writes
      already holds what it would write. */
  lemma CopyTreeAgain(t0: Tree, src: Folder, dst: Path, ignored: set<Name>, fault: Option<string>, t: Tree)
    requires CopyTree(t0, Directory(src), dst, ignored, fault) == Success(t)
    ensures CopyTree(t, Directory(src), dst, ignored, fault) == Success(t)
  {
    var f := Filter(src, ignored);
    assert fault.None? && t == t0 + MakeDirs(dst) + Shift(f, dst);
    forall q | q in Blocking(t, dst) ensures false {
      MergedAt(t0, f, dst, q);
    }
    forall q | q in Clashes(t, f, dst) ensures false {
      MergedAt(t0, f, dst, q);
    }
    forall q ensures Lookup(t + MakeDirs(dst) + Shift(f, dst), q) == Lookup(t, q) {
      MergedAt(t0, f, dst, q);
      MergedAt(t, f, dst, q);
    }
    LookupExtensional(t + MakeDirs(dst) + Shift(f, dst), t);
  }

  /** A copy fails with an operating system error exactly when the
      operating system raised one, and then with that error. */
  lemma CopyTreeRaises(t: Tree, src: Source, dst: Path, ignored: set<Name>, fault: Option<string>)
    ensures fault.Some? ==> CopyTree(t, src, dst, ignored, fault) == Failure(OsError(fault.value))
    ensures CopyTree(t, src, dst, ignored, fault).Failure? && CopyTree(t, src, dst, ignored, fault).error.OsError?
            ==> fault.Some?
  {
  }

  /** A copy with no fault, into a destination that no file blocks and
      where no kinds clash, succeeds with the merged tree. */
  lemma CopyTreeSucceeds(t: Tree, src: Tree, dst: Path, ignored: set<Name>, fault: Option<string>, t': Tree)
    requires fault.None? && WellFormed(src)
    requires Blocking(t, dst) == {} && Clashes(t, Filter(src, ignored), dst) == {}
    requires t + MakeDirs(dst) + Shift(Filter(src, ignored), dst) == t'
    ensures CopyTree(t, Directory(src), dst, ignored, fault) == Success(t')
  {
  }
}
