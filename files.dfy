/**
 * The file system as `organize_project` sees it: a map from absolute
 * paths to files and directories, with the `os` and `shutil`
 * operations it calls. Each operation is a function from the old map to an
 * `Outcome` (the new map, or the exception it raises), and `FileSystem`
 * holds the map and performs the operations in place. Paths in `denied`
 * cannot be written, created or deleted: they stand for whatever makes the
 * operating system refuse (permissions, a file in use).
 */
module Files {
  import opened Wrappers
  import opened Paths

  datatype Node = File(content: seq<int>) | Dir

  type Tree = map<string, Node>

  /** The exceptions the operations raise. */
  datatype Error =
    | FileExists(path: string)
    | NotADirectory(path: string)
    | NotFound(path: string)
    | IsADirectory(path: string)
    | PermissionDenied(path: string)
    | SameFile(src: string, dst: string)
    | DestinationExists(path: string)

  datatype Outcome = Done(tree: Tree) | Failed(error: Error)

  /** `str(e)` of the exception. */
  function ErrorText(e: Error): string {
    match e
    case FileExists(p) => "[Errno 17] File exists: '" + p + "'"
    case NotADirectory(p) => "[Errno 20] Not a directory: '" + p + "'"
    case NotFound(p) => "[Errno 2] No such file or directory: '" + p + "'"
    case IsADirectory(p) => "[Errno 21] Is a directory: '" + p + "'"
    case PermissionDenied(p) => "[Errno 13] Permission denied: '" + p + "'"
    case SameFile(s, d) => "'" + s + "' and '" + d + "' are the same file"
    case DestinationExists(p) => "Destination path '" + p + "' already exists"
  }

  predicate IsDir(t: Tree, p: string) {
    p in t && t[p].Dir?
  }

  predicate IsFile(t: Tree, p: string) {
    p in t && t[p].File?
  }

  /** `u` holds at `d` what `t` holds at `s`. */
  predicate Holds(u: Tree, d: string, t: Tree, s: string) {
    s in t && d in u && u[d] == t[s]
  }

  /** `k` is present in `u` exactly when it is in `t`, with the same node. */
  predicate Same(t: Tree, u: Tree, k: string) {
    (k in t <==> k in u) && (k in t ==> t[k] == u[k])
  }

  /** `os.makedirs(p, exist_ok=True)`: every missing directory on the way to
      `p` is created; directories that already exist are fine, a file in the
      way is not. */
  function MakeDirsOutcome(t: Tree, denied: set<string>, p: string): (o: Outcome)
    ensures o.Failed? <==> p == [] || (exists q | q in Ancestors(p) :: IsFile(t, q))
                           || (exists q | q in Ancestors(p) && q !in t :: q in denied)
    ensures o.Done? ==> forall q | q in Ancestors(p) :: IsDir(o.tree, q)
    ensures o.Done? ==> forall k | k in t :: k in o.tree && o.tree[k] == t[k]
    ensures o.Done? ==> forall k | k !in Ancestors(p) :: Same(t, o.tree, k)
  {
    var a := Ancestors(p);
    if p == [] then Failed(NotFound(p))
    else if IsFile(t, p) then Failed(FileExists(p))
    else if exists q | q in a :: IsFile(t, q) then Failed(NotADirectory(p))
    else if exists q | q in a && q !in t :: q in denied then Failed(PermissionDenied(p))
    else Done(t + map q | q in a && q !in t :: Dir)
  }

  /** Where `shutil.move` and `shutil.copy2` put `s` when asked to put it at
      `d`: inside `d` when `d` is a directory, else at `d`. */
  function Target(t: Tree, s: string, d: string): string {
    if IsDir(t, d) then Join(d, Basename(s)) else d
  }

  /** `shutil.move(s, d)` for a file `s`: renamed to its target, replacing a
      file there; a directory source is not modelled and fails. */
  function MoveOutcome(t: Tree, denied: set<string>, s: string, d: string): (o: Outcome)
    ensures o.Done? <==> IsFile(t, s) && !(IsDir(t, d) && Target(t, s, d) in t)
                         && s !in denied && Target(t, s, d) !in denied
    ensures o.Done? ==> var r := Target(t, s, d);
                        r in o.tree && o.tree[r] == t[s] && (s != r ==> s !in o.tree)
                        && forall k | k != s && k != r :: Same(t, o.tree, k)
  {
    var r := Target(t, s, d);
    if s !in t then Failed(NotFound(s))
    else if IsDir(t, d) && r in t then Failed(DestinationExists(r))
    else if t[s].Dir? then Failed(IsADirectory(s))
    else if s in denied || r in denied then Failed(PermissionDenied(s))
    else if s == r then Done(t)
    else Done((t - {s})[r := t[s]])
  }

  /** `shutil.copy2(s, d)`: the file's content is written to its target;
      the source stays. */
  function CopyOutcome(t: Tree, denied: set<string>, s: string, d: string): (o: Outcome)
    ensures o.Done? <==> IsFile(t, s) && s != Target(t, s, d) && !IsDir(t, Target(t, s, d))
                         && Target(t, s, d) !in denied
    ensures o.Done? ==> var r := Target(t, s, d);
                        r in o.tree && o.tree[r] == t[s] && s in o.tree && o.tree[s] == t[s]
                        && forall k | k != r :: Same(t, o.tree, k)
  {
    var r := Target(t, s, d);
    if s !in t then Failed(NotFound(s))
    else if s == r then Failed(SameFile(s, r))
    else if t[s].Dir? then Failed(IsADirectory(s))
    else if IsDir(t, r) then Failed(IsADirectory(r))
    else if r in denied then Failed(PermissionDenied(r))
    else Done(t[r := t[s]])
  }

  /** `shutil.rmtree(p)`: the directory and everything inside it go. */
  function RemoveTreeOutcome(t: Tree, denied: set<string>, p: string): (o: Outcome)
    ensures o.Done? <==> IsDir(t, p) && !exists k | k in t && Under(k, p) :: k in denied
    ensures o.Done? ==> forall k | Under(k, p) :: k !in o.tree
    ensures o.Done? ==> forall k | !Under(k, p) :: Same(t, o.tree, k)
  {
    if p !in t then Failed(NotFound(p))
    else if t[p].File? then Failed(NotADirectory(p))
    else if exists k | k in t && Under(k, p) :: k in denied then Failed(PermissionDenied(p))
    else Done(map k | k in t && !Under(k, p) :: t[k])
  }

  /** `os.remove(p)`: one file goes. */
  function RemoveOutcome(t: Tree, denied: set<string>, p: string): (o: Outcome)
    ensures o.Done? <==> IsFile(t, p) && p !in denied
    ensures o.Done? ==> p !in o.tree && forall k | k != p :: Same(t, o.tree, k)
  {
    if p !in t then Failed(NotFound(p))
    else if t[p].Dir? then Failed(IsADirectory(p))
    else if p in denied then Failed(PermissionDenied(p))
    else Done(t - {p})
  }

  /** Making directories that all exist already changes nothing, so a project
      folder left by an earlier build is no obstacle. */
  lemma MakeDirsExistOk(t: Tree, denied: set<string>, p: string)
    requires p != [] && forall q | q in Ancestors(p) :: IsDir(t, q)
    ensures MakeDirsOutcome(t, denied, p) == Done(t)
  {
    var a := Ancestors(p);
    assert (map q | q in a && q !in t :: Dir) == map[];
    assert t + map[] == t;
  }

  /** What a method of `FileSystem` reports, against the outcome of its
      operation: no error and the new tree, or the error and no change. */
  predicate Reports(o: Outcome, before: Tree, error: Option<Error>, after: Tree) {
    match o
    case Done(t) => error.None? && after == t
    case Failed(e) => error == Some(e) && after == before
  }

  /** The file system, resolving relative paths against the working
      directory, which stays the same throughout. */
  class FileSystem {
    var tree: Tree
    const cwd: string
    const denied: set<string>

    constructor(tree: Tree, cwd: string, denied: set<string>)
      ensures this.tree == tree && this.cwd == cwd && this.denied == denied
    {
      this.tree := tree;
      this.cwd := cwd;
      this.denied := denied;
    }

    /** `os.path.exists(path)`. */
    method Exists(path: string) returns (b: bool)
      ensures b <==> Abs(cwd, path) in tree
    {
      b := Abs(cwd, path) in tree;
    }

    /** `os.makedirs(path, exist_ok=True)`. */
    method MakeDirs(path: string) returns (error: Option<Error>)
      modifies this
      ensures Reports(MakeDirsOutcome(old(tree), denied, Abs(cwd, path)), old(tree), error, tree)
    {
      var o := MakeDirsOutcome(tree, denied, Abs(cwd, path));
      if o.Done? {
        tree := o.tree;
        error := None;
      } else {
        error := Some(o.error);
      }
    }

    /** `shutil.move(src, dst)`. */
    method Move(src: string, dst: string) returns (error: Option<Error>)
      modifies this
      ensures Reports(MoveOutcome(old(tree), denied, Abs(cwd, src), Abs(cwd, dst)), old(tree), error, tree)
    {
      var o := MoveOutcome(tree, denied, Abs(cwd, src), Abs(cwd, dst));
      if o.Done? {
        tree := o.tree;
        error := None;
      } else {
        error := Some(o.error);
      }
    }

    /** `shutil.copy2(src, dst)`. */
    method Copy2(src: string, dst: string) returns (error: Option<Error>)
      modifies this
      ensures Reports(CopyOutcome(old(tree), denied, Abs(cwd, src), Abs(cwd, dst)), old(tree), error, tree)
    {
      var o := CopyOutcome(tree, denied, Abs(cwd, src), Abs(cwd, dst));
      if o.Done? {
        tree := o.tree;
        error := None;
      } else {
        error := Some(o.error);
      }
    }

    /** `shutil.rmtree(path)`. */
    method RemoveTree(path: string) returns (error: Option<Error>)
      modifies this
      ensures Reports(RemoveTreeOutcome(old(tree), denied, Abs(cwd, path)), old(tree), error, tree)
    {
      var o := RemoveTreeOutcome(tree, denied, Abs(cwd, path));
      if o.Done? {
        tree := o.tree;
        error := None;
      } else {
        error := Some(o.error);
      }
    }

    /** `os.remove(path)`. */
    method Remove(path: string) returns (error: Option<Error>)
      modifies this
      ensures Reports(RemoveOutcome(old(tree), denied, Abs(cwd, path)), old(tree), error, tree)
    {
      var o := RemoveOutcome(tree, denied, Abs(cwd, path));
      if o.Done? {
        tree := o.tree;
        error := None;
      } else {
        error := Some(o.error);
      }
    }
  }
}
