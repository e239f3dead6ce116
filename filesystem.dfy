/**
 * The part of the host filesystem the scaffolder touches: a tree of
 * directories and text files keyed by path. The spec functions say what
 * each primitive does to a tree; the `FileSystem` class holds the one tree
 * of a run and applies them in place, the way the asynchronous filesystem
 * calls of the generator do.
 */
module FileSystems {
  import opened Wrappers

  /** A path as its components, from the root; the root itself is `[]`. */
  type Path = seq<string>

  datatype Node = Dir | File(content: string)

  datatype IoError =
    | NotFound(path: Path)
    | NotADirectory(path: Path)
    | IsADirectory(path: Path)
    | PermissionDenied(path: Path)
    | AlreadyExists(path: Path)

  /** Every stored entry except the root, which always exists and is a directory. */
  type Tree = map<Path, Node>

  function Parent(p: Path): Path
    requires p != []
  {
    p[..|p| - 1]
  }

  /** `p` is `q` or one of its ancestors. */
  predicate IsPrefix(p: Path, q: Path) {
    |p| <= |q| && q[..|p|] == p
  }

  /** Every stored entry hangs from a directory that is stored too (or from the root). */
  ghost predicate WellFormed(t: Tree) {
    forall p :: p in t ==> p != [] && (|p| > 1 ==> Parent(p) in t && t[Parent(p)].Dir?)
  }

  /** `p` is stored as a regular file. */
  predicate FileAt(t: Tree, p: Path) {
    p in t && t[p].File?
  }

  predicate IsDirIn(t: Tree, p: Path) {
    p == [] || (p in t && t[p].Dir?)
  }

  /** The entries directly inside `p`. */
  function Entries(t: Tree, p: Path): set<Path> {
    set q | q in t && |q| == |p| + 1 && q[..|p|] == p
  }

  /** The non-root ancestors of `p`, `p` included. */
  function Prefixes(p: Path): set<Path> {
    set i | 1 <= i <= |p| :: p[..i]
  }

  /** No component along `p` is a file, so every missing one can be created as a directory. */
  predicate NoFileOnPath(t: Tree, p: Path) {
    forall q :: q in Prefixes(p) && q in t ==> t[q].Dir?
  }

  /** The tree after `create_dir_all(p)` succeeds: every missing component becomes a directory. */
  function WithDirs(t: Tree, p: Path): Tree {
    t + map q | q in Prefixes(p) && q !in t :: Dir
  }

  /** The tree after `remove_dir_all(p)` succeeds: `p` and everything below it are gone. */
  function WithoutTree(t: Tree, p: Path): Tree {
    map q | q in t && !IsPrefix(p, q) :: t[q]
  }

  /** `write(p, _)` can succeed: `p` is below an existing directory and is not itself one. */
  predicate CanWrite(t: Tree, p: Path) {
    p != [] && IsDirIn(t, Parent(p)) && !(p in t && t[p].Dir?)
  }

  lemma PrefixesOf(p: Path, q: Path)
    ensures q in Prefixes(p) <==> q != [] && IsPrefix(q, p)
  {
    if q != [] && IsPrefix(q, p) {
      assert q == p[..|q|];
    }
  }

  /** Creating the missing directories along a path keeps the tree well formed. */
  lemma WithDirsWellFormed(t: Tree, p: Path)
    requires WellFormed(t) && NoFileOnPath(t, p)
    ensures WellFormed(WithDirs(t, p))
  {
    var t' := WithDirs(t, p);
    forall q | q in t' && |q| > 1
      ensures Parent(q) in t' && t'[Parent(q)].Dir?
    {
      if q !in t {
        PrefixesOf(p, q);
        PrefixesOf(p, Parent(q));
        assert Parent(q) in Prefixes(p);
      }
    }
  }

  /**
   * After `create_dir_all(p)`, `p` is a directory, nothing that existed
   * changed, and `p` holds exactly the entries it held before (none, if it
   * was just created).
   */
  lemma WithDirsMakesDir(t: Tree, p: Path)
    requires WellFormed(t) && NoFileOnPath(t, p)
    ensures IsDirIn(WithDirs(t, p), p)
    ensures forall q :: q in t ==> q in WithDirs(t, p) && WithDirs(t, p)[q] == t[q]
    ensures Entries(WithDirs(t, p), p) == Entries(t, p)
  {
    var t' := WithDirs(t, p);
    if p != [] {
      PrefixesOf(p, p);
    }
    forall q | q in t' && |q| == |p| + 1 && q[..|p|] == p
      ensures q in t
    {
      if q !in t {
        PrefixesOf(p, q);
      }
    }
  }

  /** Removing a subtree other than the root keeps the tree well formed. */
  lemma WithoutTreeWellFormed(t: Tree, p: Path)
    requires WellFormed(t) && p != []
    ensures WellFormed(WithoutTree(t, p))
  {
    var t' := WithoutTree(t, p);
    forall q | q in t' && |q| > 1
      ensures Parent(q) in t' && t'[Parent(q)].Dir?
    {
      assert Parent(q) in t;
    }
  }

  /**
   * Removing the subtree at `p` and creating `p` again leaves `p` an empty
   * directory, whatever it held before; entries outside that subtree are kept.
   */
  lemma RecreateEmpties(t: Tree, p: Path)
    requires WellFormed(t) && p != []
    requires NoFileOnPath(WithoutTree(t, p), p)
    ensures IsDirIn(WithDirs(WithoutTree(t, p), p), p)
    ensures Entries(WithDirs(WithoutTree(t, p), p), p) == {}
    ensures forall q :: q in t && !IsPrefix(p, q) ==> q in WithDirs(WithoutTree(t, p), p)
  {
    var u := WithoutTree(t, p);
    WithoutTreeWellFormed(t, p);
    WithDirsMakesDir(u, p);
    assert Entries(u, p) == {};
  }

  /** In a well-formed tree every proper ancestor of a stored entry is a stored directory. */
  lemma {:induction false} AncestorsAreDirs(t: Tree, p: Path, q: Path)
    requires WellFormed(t) && p in t
    requires q != [] && IsPrefix(q, p) && q != p
    ensures q in t && t[q].Dir?
    decreases |p|
  {
    assert |q| < |p|;
    var up := Parent(p);
    assert up[..|q|] == q;
    if up != q {
      AncestorsAreDirs(t, up, q);
    }
  }

  /** `create_dir_all` on an existing directory changes nothing. */
  lemma WithDirsOfDir(t: Tree, p: Path)
    requires WellFormed(t) && IsDirIn(t, p)
    ensures NoFileOnPath(t, p) && WithDirs(t, p) == t
  {
    forall q | q in Prefixes(p) ensures q in t && t[q].Dir? {
      PrefixesOf(p, q);
      if q != p {
        AncestorsAreDirs(t, p, q);
      }
    }
  }

  /** Only a directory holds entries. */
  lemma NoEntriesOutsideDirs(t: Tree, p: Path)
    requires WellFormed(t)
    ensures Entries(t, p) != {} ==> IsDirIn(t, p)
  {
    forall q | q in t && |q| == |p| + 1 && p != [] ensures q[..|p|] == Parent(q) {
    }
  }

  /** A write keeps the tree well formed. */
  lemma WriteWellFormed(t: Tree, p: Path, c: string)
    requires WellFormed(t) && CanWrite(t, p)
    ensures WellFormed(t[p := File(c)])
  {
  }

  class FileSystem {
    var tree: Tree

    ghost predicate Valid()
      reads this
    {
      WellFormed(tree)
    }

    constructor (t: Tree)
      requires WellFormed(t)
      ensures Valid() && tree == t
    {
      tree := t;
    }

    /** `create_dir_all`: create `p` and every missing ancestor. */
    method CreateDirAll(p: Path) returns (r: Result<(), IoError>)
      requires Valid()
      modifies this
      ensures Valid()
      ensures r.Success? <==> NoFileOnPath(old(tree), p)
      // A file at `p` itself already exists; a file above it is not a directory to create `p` in.
      ensures r.Failure? && FileAt(old(tree), p) ==> r.error == AlreadyExists(p)
      ensures r.Failure? && !FileAt(old(tree), p) ==> r.error == NotADirectory(p)
      ensures tree == if r.Success? then WithDirs(old(tree), p) else old(tree)
    {
      if NoFileOnPath(tree, p) {
        WithDirsWellFormed(tree, p);
        tree := WithDirs(tree, p);
        r := Success(());
      } else if FileAt(tree, p) {
        r := Failure(AlreadyExists(p));
      } else {
        r := Failure(NotADirectory(p));
      }
    }

    /** `remove_dir_all`: remove the directory `p` with everything below it. */
    method RemoveDirAll(p: Path) returns (r: Result<(), IoError>)
      requires Valid()
      modifies this
      ensures Valid()
      ensures r.Success? <==> p != [] && IsDirIn(old(tree), p)
      ensures tree == if r.Success? then WithoutTree(old(tree), p) else old(tree)
    {
      if p == [] {
        r := Failure(PermissionDenied(p));
      } else if p !in tree {
        r := Failure(NotFound(p));
      } else if tree[p].File? {
        r := Failure(NotADirectory(p));
      } else {
        WithoutTreeWellFormed(tree, p);
        tree := WithoutTree(tree, p);
        r := Success(());
      }
    }

    /** `write`: create or truncate the file `p` and store `c` in it. */
    method Write(p: Path, c: string) returns (r: Result<(), IoError>)
      requires Valid()
      modifies this
      ensures Valid()
      ensures r.Success? <==> CanWrite(old(tree), p)
      ensures tree == if r.Success? then old(tree)[p := File(c)] else old(tree)
    {
      if p == [] || (p in tree && tree[p].Dir?) {
        r := Failure(IsADirectory(p));
      } else if !IsDirIn(tree, Parent(p)) {
        r := Failure(NotFound(p));
      } else {
        WriteWellFormed(tree, p, c);
        tree := tree[p := File(c)];
        r := Success(());
      }
    }

    /** `read`: the content of the file `p`. */
    method Read(p: Path) returns (r: Result<string, IoError>)
      ensures r.Success? <==> p in tree && tree[p].File?
      ensures r.Success? ==> r.value == tree[p].content
    {
      if p in tree && tree[p].File? {
        r := Success(tree[p].content);
      } else if IsDirIn(tree, p) {
        r := Failure(IsADirectory(p));
      } else {
        r := Failure(NotFound(p));
      }
    }

    /** `read_dir(p)` followed by `next_entry`: whether the directory `p` holds anything. */
    method HasEntry(p: Path) returns (r: Result<bool, IoError>)
      ensures r.Success? <==> IsDirIn(tree, p)
      ensures r.Success? ==> (r.value <==> Entries(tree, p) != {})
    {
      if IsDirIn(tree, p) {
        r := Success(Entries(tree, p) != {});
      } else {
        r := Failure(NotFound(p));
      }
    }
  }
}
