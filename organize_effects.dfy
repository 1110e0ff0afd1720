/**
 * What `organize_project` does to the file system, step by step: where the
 * project folder and its `py_file` folder lie, that the exe arrives in the
 * project folder with its content, that the script is copied next to it,
 * that the build leftovers are gone, and that nothing else changes. The
 * organiser as written deletes the project it has just built when the exe
 * is called `build`; the corrected organiser keeps it.
 */
module OrganizeEffects {
  import opened Wrappers
  import opened Paths
  import opened Files
  import opened Organizer

  /** A file name as the build produces it (`<name>.exe`). */
  predicate ExeNamed(exePath: string) {
    EndsWith(Basename(exePath), ".exe")
  }

  /** The names a plan is made from: the exe's file name, its stem and the
      script's file name. */
  predicate Names(exeName: string, base: string, scriptName: string) {
    && EndsWith(exeName, ".exe") && '/' !in exeName
    && base != [] && '/' !in base
    && '/' !in scriptName
  }

  function Start(t: Tree): Progress {
    Progress(t, [], None)
  }

  /** The names `organize_project` takes from an exe path ending in `.exe`
      and from any script path. */
  lemma NamesOf(exePath: string, scriptPath: string)
    requires ExeNamed(exePath)
    ensures Names(Basename(exePath), Stem(Basename(exePath)), Basename(scriptPath))
  {
    StemIsName(Basename(exePath));
  }

  /** A name joined onto a directory gives a path without a trailing
      separator. */
  lemma JoinedName(a: string, n: string)
    requires n != [] && '/' !in n
    ensures var j := Join(a, n); j != [] && j[|j| - 1] != '/'
  {
    assert Join(a, n) == WithSeparator(a) + n;
  }

  lemma PyFolderJoin(cwd: string, a: string)
    ensures Abs(cwd, Join(a, "py_file")) == Join(Abs(cwd, a), "py_file")
  {
    AbsJoin(cwd, a, "py_file");
  }

  lemma EntryJoin(cwd: string, a: string, n: string)
    requires '/' !in n
    ensures Abs(cwd, Join(a, n)) == Join(Abs(cwd, a), n)
  {
    AbsJoin(cwd, a, n);
  }

  /** The project folder is a proper directory path inside the output
      directory; the `py_file` folder and the new exe are entries of it, and
      the script's destination is an entry of the `py_file` folder. */
  lemma Layout(cwd: string, outputDir: string, name: string, base: string, sn: string)
    ensures Names(name, base, sn) ==>
      var plan := PlanOf(cwd, outputDir, name, base, sn);
      var p := Abs(cwd, plan.project);
      && p != [] && p[|p| - 1] != '/'
      && p == Join(Abs(cwd, outputDir), base)
      && Abs(cwd, plan.pyFolder) == Join(p, "py_file")
      && Abs(cwd, plan.newExe) == Join(p, name)
      && Abs(cwd, plan.destPy) == Join(Abs(cwd, plan.pyFolder), sn)
  {
    if Names(name, base, sn) {
      var plan := PlanOf(cwd, outputDir, name, base, sn);
      AbsJoin(cwd, outputDir, base);
      JoinedName(Abs(cwd, outputDir), base);
      PyFolderJoin(cwd, plan.project);
      EntryJoin(cwd, plan.project, name);
      EntryJoin(cwd, plan.pyFolder, sn);
    }
  }

  lemma PyFolderUnder(p: string)
    requires p != [] && p[|p| - 1] != '/'
    ensures var q := Join(p, "py_file");
      q != [] && q[|q| - 1] != '/' && Under(q, p) && |q| > |p|
  {
    assert Join(p, "py_file") == p + "/" + "py_file";
  }

  lemma EntryUnder(q: string, n: string)
    requires q != [] && q[|q| - 1] != '/' && '/' !in n
    ensures Under(Join(q, n), q) && |Join(q, n)| > |q|
  {
    assert Join(q, n) == q + "/" + n;
  }

  /** The `py_file` folder is a directory path inside the project folder,
      and the script's destination lies inside it. */
  lemma PyFolderInside(cwd: string, outputDir: string, name: string, base: string, sn: string)
    requires Names(name, base, sn)
    ensures var plan := PlanOf(cwd, outputDir, name, base, sn);
      var q := Abs(cwd, plan.pyFolder);
      && q != [] && q[|q| - 1] != '/'
      && Under(q, Abs(cwd, plan.project)) && Under(Abs(cwd, plan.destPy), q)
  {
    var plan := PlanOf(cwd, outputDir, name, base, sn);
    Layout(cwd, outputDir, name, base, sn);
    PyFolderAndEntry(Abs(cwd, plan.project), sn);
  }

  lemma PyFolderAndEntry(p: string, sn: string)
    requires p != [] && p[|p| - 1] != '/' && '/' !in sn
    ensures var q := Join(p, "py_file");
      && q != [] && q[|q| - 1] != '/'
      && Under(q, p) && Under(Join(q, sn), q)
  {
    PyFolderUnder(p);
    EntryUnder(Join(p, "py_file"), sn);
  }

  /** The new exe path lies in the project folder under the exe's name, and
      is neither inside the `py_file` folder nor one of the folders the two
      `makedirs` calls create. */
  lemma NewExeApart(cwd: string, outputDir: string, name: string, base: string, sn: string)
    ensures Names(name, base, sn) ==>
      var plan := PlanOf(cwd, outputDir, name, base, sn);
      var p := Abs(cwd, plan.project);
      var n := Abs(cwd, plan.newExe);
      && !Under(n, Abs(cwd, plan.pyFolder))
      && n !in Ancestors(p)
      && n !in Ancestors(Abs(cwd, plan.pyFolder))
      && Under(n, p)
      && Basename(n) == name
  {
    if Names(name, base, sn) {
      var plan := PlanOf(cwd, outputDir, name, base, sn);
      Layout(cwd, outputDir, name, base, sn);
      NotPyFile(name);
      EntryApart(Abs(cwd, plan.project), name);
    }
  }

  lemma NotPyFile(name: string)
    requires EndsWith(name, ".exe")
    ensures name != [] && name != "py_file"
  {
    assert name[|name| - 2] == 'x' != "py_file"[5];
  }

  /** An entry of `p` other than `py_file`, against `p/py_file`. */
  lemma EntryApart(p: string, e: string)
    requires p != [] && p[|p| - 1] != '/'
    requires e != [] && '/' !in e && e != "py_file"
    ensures var n := Join(p, e); var q := Join(p, "py_file");
      && !Under(n, q) && n !in Ancestors(p) && n !in Ancestors(q)
      && Under(n, p) && Basename(n) == e
  {
    var n := Join(p, e);
    var q := Join(p, "py_file");
    EntryUnder(p, e);
    SiblingsDisjoint(p, e, "py_file", n);
    SiblingsDisjoint(p, "py_file", e, q);
    BasenameJoin(p, e);
  }

  /** A path whose base name ends in `.exe` is not `a/n` for a name `n`
      ending in another letter, such as a `.spec` file or a `build` folder. */
  lemma NotNamed(k: string, a: string, n: string)
    requires EndsWith(Basename(k), ".exe")
    requires n != [] && '/' !in n && n[|n| - 1] != 'e'
    ensures k != Join(a, n)
  {
    ExeEndsInE(Basename(k));
    BasenameJoin(a, n);
  }

  lemma ExeEndsInE(b: string)
    requires EndsWith(b, ".exe")
    ensures b != [] && b[|b| - 1] == 'e'
  {
    assert b[|b| - 1] == b[|b| - 4..][3];
  }

  /** The base name of every path the cleanup names. */
  lemma CleanupNames(cwd: string, outputDir: string, name: string, base: string, sn: string)
    requires Names(name, base, sn)
    ensures var plan := PlanOf(cwd, outputDir, name, base, sn);
      var spec := base + ".spec";
      && spec != [] && '/' !in spec && spec[|spec| - 1] == 'c'
      && Abs(cwd, plan.build) == Join(Abs(cwd, cwd), "build")
      && Abs(cwd, plan.spec) == Join(Abs(cwd, cwd), spec)
      && Abs(cwd, plan.build2) == Join(Abs(cwd, outputDir), "build")
      && Abs(cwd, plan.spec2) == Join(Abs(cwd, outputDir), spec)
  {
    SpecName(base);
    BuildJoin(cwd, cwd);
    BuildJoin(cwd, outputDir);
    EntryJoin(cwd, cwd, base + ".spec");
    EntryJoin(cwd, outputDir, base + ".spec");
  }

  lemma SpecName(base: string)
    requires '/' !in base
    ensures var spec := base + ".spec"; spec != [] && '/' !in spec && spec[|spec| - 1] == 'c'
  {
    NoSeparatorInConcat(base, ".spec");
  }

  lemma BuildJoin(cwd: string, a: string)
    ensures Abs(cwd, Join(a, "build")) == Join(Abs(cwd, a), "build")
  {
    AbsJoin(cwd, a, "build");
  }

  /** The copy writes only inside the `py_file` folder. */
  lemma CopyStaysInPyFolder(cwd: string, outputDir: string, name: string, base: string, sn: string,
                            scriptPath: string, k: string)
    ensures Names(name, base, sn) && !Under(k, Abs(cwd, PlanOf(cwd, outputDir, name, base, sn).pyFolder)) ==>
      !Touches(cwd, CopyOp(scriptPath, PlanOf(cwd, outputDir, name, base, sn).destPy), k)
  {
    if Names(name, base, sn) && !Under(k, Abs(cwd, PlanOf(cwd, outputDir, name, base, sn).pyFolder)) {
      var plan := PlanOf(cwd, outputDir, name, base, sn);
      PyFolderInside(cwd, outputDir, name, base, sn);
      OutsideMisses(Abs(cwd, plan.pyFolder), Abs(cwd, plan.destPy), Basename(Abs(cwd, scriptPath)), k);
    }
  }

  /** A path outside `q` is neither a path `d` inside it nor an entry of `d`. */
  lemma OutsideMisses(q: string, d: string, b: string, k: string)
    requires q != [] && q[|q| - 1] != '/' && Under(d, q) && '/' !in b && !Under(k, q)
    ensures k != d && k != Join(d, b)
  {
    UnderJoinAgain(d, b, q);
  }

  /** The move of the exe, onto a path that is not a directory: the content
      arrives there, the old path is gone, nothing else changes. */
  lemma MoveStep(cwd: string, denied: set<string>, p: Progress, s: Step, x: string, n: string, k: string)
    requires s.op.MoveOp? && x == Abs(cwd, s.op.src) && n == Abs(cwd, s.op.dst)
    requires x in p.tree && !IsDir(p.tree, n)
    requires Advance(cwd, denied, p, s).error.None?
    ensures var u := Advance(cwd, denied, p, s).tree;
      && n in u && u[n] == p.tree[x] && (x != n ==> x !in u)
      && (k != x && k != n ==> Same(p.tree, u, k))
  {
  }

  /** The copy of the script onto a path that is not a directory: the content
      arrives there, the source stays, nothing else changes. */
  lemma CopyStep(cwd: string, denied: set<string>, p: Progress, s: Step, x: string, d: string, k: string)
    requires s.op.CopyOp? && x == Abs(cwd, s.op.src) && d == Abs(cwd, s.op.dst)
    requires x in p.tree && !IsDir(p.tree, d)
    requires Advance(cwd, denied, p, s).error.None?
    ensures var u := Advance(cwd, denied, p, s).tree;
      && d in u && u[d] == p.tree[x] && x in u && u[x] == p.tree[x]
      && (k != d ==> Same(p.tree, u, k))
  {
  }

  /** `MoveStep` for the step at index `i` of a run. */
  lemma MoveAt(cwd: string, denied: set<string>, p: Progress, steps: seq<Step>, i: int, x: string, n: string)
    ensures && 0 <= i < |steps| && steps[i].op.MoveOp?
            && x == Abs(cwd, steps[i].op.src) && n == Abs(cwd, steps[i].op.dst)
            && x in After(cwd, denied, p, steps, i).tree && !IsDir(After(cwd, denied, p, steps, i).tree, n)
            && After(cwd, denied, p, steps, i + 1).error.None?
            ==> var t, u := After(cwd, denied, p, steps, i).tree, After(cwd, denied, p, steps, i + 1).tree;
                n in u && u[n] == t[x] && (x != n ==> x !in u)
  {
    if 0 <= i < |steps| {
      AfterStep(cwd, denied, p, steps, i);
      if && steps[i].op.MoveOp? && x == Abs(cwd, steps[i].op.src) && n == Abs(cwd, steps[i].op.dst)
         && x in After(cwd, denied, p, steps, i).tree && !IsDir(After(cwd, denied, p, steps, i).tree, n)
         && After(cwd, denied, p, steps, i + 1).error.None? {
        MoveStep(cwd, denied, After(cwd, denied, p, steps, i), steps[i], x, n, x);
      }
    }
  }

  /** `CopyStep` for the step at index `i` of a run. */
  lemma CopyAt(cwd: string, denied: set<string>, p: Progress, steps: seq<Step>, i: int, x: string, d: string)
    ensures && 0 <= i < |steps| && steps[i].op.CopyOp?
            && x == Abs(cwd, steps[i].op.src) && d == Abs(cwd, steps[i].op.dst)
            && x in After(cwd, denied, p, steps, i).tree && !IsDir(After(cwd, denied, p, steps, i).tree, d)
            && After(cwd, denied, p, steps, i + 1).error.None?
            ==> var t, u := After(cwd, denied, p, steps, i).tree, After(cwd, denied, p, steps, i + 1).tree;
                d in u && u[d] == t[x]
  {
    if 0 <= i < |steps| {
      AfterStep(cwd, denied, p, steps, i);
      if && steps[i].op.CopyOp? && x == Abs(cwd, steps[i].op.src) && d == Abs(cwd, steps[i].op.dst)
         && x in After(cwd, denied, p, steps, i).tree && !IsDir(After(cwd, denied, p, steps, i).tree, d)
         && After(cwd, denied, p, steps, i + 1).error.None? {
        CopyStep(cwd, denied, After(cwd, denied, p, steps, i), steps[i], x, d, d);
      }
    }
  }

  /** The first three of eight steps: two `makedirs` calls that create
      neither `x` nor `n`, then the move of `x` to `n`. */
  predicate MovesExe(cwd: string, steps: seq<Step>, x: string, n: string) {
    |steps| == 8 && MovesExeAt(cwd, steps, 0, x, n)
  }

  /** The same three steps from step i on. */
  predicate MovesExeAt(cwd: string, steps: seq<Step>, i: int, x: string, n: string) {
    && 0 <= i && i + 3 <= |steps|
    && steps[i].op.MakeDirsOp? && n !in Ancestors(Abs(cwd, steps[i].op.path))
    && steps[i + 1].op.MakeDirsOp? && n !in Ancestors(Abs(cwd, steps[i + 1].op.path))
    && steps[i + 2].op.MoveOp? && Abs(cwd, steps[i + 2].op.src) == x && Abs(cwd, steps[i + 2].op.dst) == n
  }

  /** The exe's move at step i + 2, after two `makedirs` calls that create
      no `n`, run from a file system where `x` is a file and `n` is no
      directory: the content of `x` is at `n` afterwards and `x` is gone. */
  lemma ExeArrives(cwd: string, denied: set<string>, p: Progress, steps: seq<Step>, i: int, j: int, x: string, n: string)
    ensures && j == i + 3 && MovesExeAt(cwd, steps, i, x, n)
            && IsFile(After(cwd, denied, p, steps, i).tree, x) && !IsDir(After(cwd, denied, p, steps, i).tree, n)
            && After(cwd, denied, p, steps, j).error.None?
            ==> var t, u := After(cwd, denied, p, steps, i).tree, After(cwd, denied, p, steps, j).tree;
                n in u && u[n] == t[x] && (x != n ==> x !in u)
  {
    if j == i + 3 {
      FoldersKeep(cwd, denied, p, steps, i, x, n);
      assert i + 2 + 1 == j;
      MoveAt(cwd, denied, p, steps, i + 2, x, n);
    }
  }

  /** Two `makedirs` calls that create no `n` keep the file at `x` and make
      no directory at `n`. */
  lemma FoldersKeep(cwd: string, denied: set<string>, p: Progress, steps: seq<Step>, i: int, x: string, n: string)
    ensures && 0 <= i && i + 2 <= |steps|
            && steps[i].op.MakeDirsOp? && n !in Ancestors(Abs(cwd, steps[i].op.path))
            && steps[i + 1].op.MakeDirsOp? && n !in Ancestors(Abs(cwd, steps[i + 1].op.path))
            && IsFile(After(cwd, denied, p, steps, i).tree, x) && !IsDir(After(cwd, denied, p, steps, i).tree, n)
            ==> var u := After(cwd, denied, p, steps, i).tree;
                var v := After(cwd, denied, p, steps, i + 2).tree;
                x in v && v[x] == u[x] && !IsDir(v, n)
  {
    MakeDirsTwice(cwd, denied, p, steps, i, x);
    FrameTwice(cwd, denied, p, steps, i, n);
  }

  /** The last four of eight steps only delete. */
  predicate CleansUp(steps: seq<Step>) {
    && |steps| == 8
    && Removal(steps[4].op) && Removal(steps[5].op) && Removal(steps[6].op) && Removal(steps[7].op)
  }

  /** No step from the copy on touches `k`. */
  predicate SparedFromCopy(cwd: string, steps: seq<Step>, k: string) {
    && |steps| == 8
    && !Touches(cwd, steps[3].op, k) && !Touches(cwd, steps[4].op, k) && !Touches(cwd, steps[5].op, k)
    && !Touches(cwd, steps[6].op, k) && !Touches(cwd, steps[7].op, k)
  }

  /** What the copy and the cleanup spare keeps its content to the end, and
      what the copy does not write stays absent through the cleanup. */
  lemma ExeStays(t: Tree, cwd: string, denied: set<string>, steps: seq<Step>, x: string, n: string)
    ensures && CleansUp(steps) && SparedFromCopy(cwd, steps, n) && !Touches(cwd, steps[3].op, x)
            && n in After(cwd, denied, Start(t), steps, 3).tree
            ==> var v, u := After(cwd, denied, Start(t), steps, 3).tree, Run(cwd, denied, Start(t), steps).tree;
                && n in u && u[n] == v[n]
                && (x !in v ==> x !in u)
  {
    var p := Start(t);
    FrameAt(cwd, denied, p, steps, 3, n);
    FrameAt(cwd, denied, p, steps, 4, n);
    FrameAt(cwd, denied, p, steps, 5, n);
    FrameAt(cwd, denied, p, steps, 6, n);
    FrameAt(cwd, denied, p, steps, 7, n);
    FrameAt(cwd, denied, p, steps, 3, x);
    ShrinksAt(cwd, denied, p, steps, 4, x);
    ShrinksAt(cwd, denied, p, steps, 5, x);
    ShrinksAt(cwd, denied, p, steps, 6, x);
    ShrinksAt(cwd, denied, p, steps, 7, x);
  }

  /** A run of eight steps that moves a file `x` onto `n`, whose copy and
      cleanup spare `n` and whose copy does not write `x`, ends, when nothing
      raises, with the file's content at `n` and `x` gone. */
  lemma ExeRun(t: Tree, cwd: string, denied: set<string>, steps: seq<Step>, x: string, n: string)
    ensures && MovesExe(cwd, steps, x, n) && CleansUp(steps) && SparedFromCopy(cwd, steps, n)
            && !Touches(cwd, steps[3].op, x) && IsFile(t, x) && !IsDir(t, n)
            && Run(cwd, denied, Start(t), steps).error.None?
            ==> var u := Run(cwd, denied, Start(t), steps).tree;
                n in u && u[n] == t[x] && (x != n ==> x !in u)
  {
    CleanBefore(cwd, denied, Start(t), steps, 3);
    ExeMoved(cwd, denied, Start(t), steps, x, n);
    ExeStays(t, cwd, denied, steps, x, n);
  }

  /** The same run after its first three steps. */
  lemma ExeMoved(cwd: string, denied: set<string>, p: Progress, steps: seq<Step>, x: string, n: string)
    ensures && MovesExeAt(cwd, steps, 0, x, n) && IsFile(p.tree, x) && !IsDir(p.tree, n)
            && After(cwd, denied, p, steps, 3).error.None?
            ==> var v := After(cwd, denied, p, steps, 3).tree;
                n in v && v[n] == p.tree[x] && (x != n ==> x !in v)
  {
    if MovesExeAt(cwd, steps, 0, x, n) && IsFile(p.tree, x) && !IsDir(p.tree, n) {
      assert After(cwd, denied, p, steps, 0) == p;
      ExeArrives(cwd, denied, p, steps, 0, 3, x, n);
    }
  }

  /** The steps `organize_project` makes before its cleanup, whatever the
      cleanup is. */
  predicate Prepares(exePath: string, scriptPath: string, plan: Plan, steps: seq<Step>) {
    && |steps| == 8
    && steps[0].op == MakeDirsOp(plan.project)
    && steps[1].op == MakeDirsOp(plan.pyFolder)
    && steps[2].op == MoveOp(exePath, plan.newExe)
    && steps[3].op == CopyOp(scriptPath, plan.destPy)
  }

  /** The calls of `organize_project`, one by one. */
  lemma StepsAre(exePath: string, scriptPath: string, plan: Plan)
    ensures var s := Steps(exePath, scriptPath, plan);
      && Prepares(exePath, scriptPath, plan, s)
      && s[4].op == RemoveTreeOp(plan.build) && s[5].op == RemoveOp(plan.spec)
      && s[6].op == RemoveTreeOp(plan.build2) && s[7].op == RemoveOp(plan.spec2)
  {
  }

  /** The calls of the corrected organiser, one by one. */
  lemma CorrectedStepsAre(exePath: string, scriptPath: string, plan: Plan)
    ensures var s := CorrectedSteps(exePath, scriptPath, plan);
      && Prepares(exePath, scriptPath, plan, s)
      && s[4].op == RemoveTreeSparingOp(plan.build, plan.project) && s[5].op == RemoveOp(plan.spec)
      && s[6].op == RemoveTreeSparingOp(plan.build2, plan.project) && s[7].op == RemoveOp(plan.spec2)
  {
  }

  /** The new exe path is none of the paths the cleanup names. */
  lemma CleanupMissesExe(cwd: string, outputDir: string, name: string, base: string, sn: string)
    ensures Names(name, base, sn) ==>
      var plan := PlanOf(cwd, outputDir, name, base, sn);
      var n := Abs(cwd, plan.newExe);
      && n != Abs(cwd, plan.build) && n != Abs(cwd, plan.spec)
      && n != Abs(cwd, plan.build2) && n != Abs(cwd, plan.spec2)
  {
    if Names(name, base, sn) {
      var plan := PlanOf(cwd, outputDir, name, base, sn);
      var n := Abs(cwd, plan.newExe);
      NewExeApart(cwd, outputDir, name, base, sn);
      CleanupNames(cwd, outputDir, name, base, sn);
      BuildNotExe(n, Abs(cwd, cwd));
      BuildNotExe(n, Abs(cwd, outputDir));
      NotNamed(n, Abs(cwd, cwd), base + ".spec");
      NotNamed(n, Abs(cwd, outputDir), base + ".spec");
    }
  }

  lemma BuildNotExe(n: string, a: string)
    requires EndsWith(Basename(n), ".exe")
    ensures n != Join(a, "build")
  {
    BuildName();
    NotNamed(n, a, "build");
  }

  lemma BuildName()
    ensures "build" != [] && '/' !in "build" && "build"[4] != 'e'
  {
  }

  /** A build folder that is not the new exe itself and that the sparing
      `rmtree` may delete, since it does not hold the project folder, does
      not hold the new exe either. */
  lemma SparingMissesExe(cwd: string, outputDir: string, name: string, base: string, sn: string, b: string)
    ensures var plan := PlanOf(cwd, outputDir, name, base, sn);
      Names(name, base, sn) && b != Abs(cwd, plan.newExe) ==>
      !(Under(Abs(cwd, plan.newExe), b) && !Under(Abs(cwd, plan.project), b))
  {
    if Names(name, base, sn) {
      var plan := PlanOf(cwd, outputDir, name, base, sn);
      Layout(cwd, outputDir, name, base, sn);
      UnderParent(Abs(cwd, plan.project), name, b);
    }
  }

  /** Where the exe goes in the calls of `organize_project`: the two
      `makedirs` calls create neither the exe nor its new path, the copy
      writes neither, and the cleanup spares the new path unless one of the
      two build folders holds it. */
  lemma ExePlan(cwd: string, outputDir: string, name: string, base: string, sn: string,
                exePath: string, scriptPath: string)
    ensures Names(name, base, sn) ==>
      var plan := PlanOf(cwd, outputDir, name, base, sn);
      var x, n := Abs(cwd, exePath), Abs(cwd, plan.newExe);
      var s := Steps(exePath, scriptPath, plan);
      && MovesExe(cwd, s, x, n) && CleansUp(s)
      && (!Under(x, Abs(cwd, plan.pyFolder)) ==> !Touches(cwd, s[3].op, x))
      && (!Under(n, Abs(cwd, plan.build)) && !Under(n, Abs(cwd, plan.build2)) ==> SparedFromCopy(cwd, s, n))
  {
    if Names(name, base, sn) {
      var plan := PlanOf(cwd, outputDir, name, base, sn);
      StepsAre(exePath, scriptPath, plan);
      NewExeApart(cwd, outputDir, name, base, sn);
      CleanupMissesExe(cwd, outputDir, name, base, sn);
      CopyStaysInPyFolder(cwd, outputDir, name, base, sn, scriptPath, Abs(cwd, plan.newExe));
      CopyStaysInPyFolder(cwd, outputDir, name, base, sn, scriptPath, Abs(cwd, exePath));
    }
  }

  /** The same for the corrected organiser, whose cleanup spares the new
      path in every case. */
  lemma CorrectedExePlan(cwd: string, outputDir: string, name: string, base: string, sn: string,
                         exePath: string, scriptPath: string)
    ensures Names(name, base, sn) ==>
      var plan := PlanOf(cwd, outputDir, name, base, sn);
      var x, n := Abs(cwd, exePath), Abs(cwd, plan.newExe);
      var s := CorrectedSteps(exePath, scriptPath, plan);
      && MovesExe(cwd, s, x, n) && CleansUp(s) && SparedFromCopy(cwd, s, n)
      && (!Under(x, Abs(cwd, plan.pyFolder)) ==> !Touches(cwd, s[3].op, x))
  {
    if Names(name, base, sn) {
      var plan := PlanOf(cwd, outputDir, name, base, sn);
      CorrectedStepsAre(exePath, scriptPath, plan);
      NewExeApart(cwd, outputDir, name, base, sn);
      CleanupMissesExe(cwd, outputDir, name, base, sn);
      CopyStaysInPyFolder(cwd, outputDir, name, base, sn, scriptPath, Abs(cwd, plan.newExe));
      CopyStaysInPyFolder(cwd, outputDir, name, base, sn, scriptPath, Abs(cwd, exePath));
      SparingMissesExe(cwd, outputDir, name, base, sn, Abs(cwd, plan.build));
      SparingMissesExe(cwd, outputDir, name, base, sn, Abs(cwd, plan.build2));
    }
  }

  /** `organize_project` as written, on an exe named `<name>.exe` that is a
      file outside the `py_file` folder, whose new path is no directory and
      lies in neither build folder: when nothing raises, it returns the new
      exe path, the exe's content is there and the old path is gone. */
  lemma OrganizeMovesExe(t: Tree, cwd: string, denied: set<string>,
                         exePath: string, scriptPath: string, outputDir: string)
    requires ExeNamed(exePath)
    requires var plan := MakePlan(cwd, exePath, scriptPath, outputDir);
      var x, n := Abs(cwd, exePath), Abs(cwd, plan.newExe);
      && IsFile(t, x) && !IsDir(t, n) && !Under(x, Abs(cwd, plan.pyFolder))
      && !Under(n, Abs(cwd, plan.build)) && !Under(n, Abs(cwd, plan.build2))
    ensures var plan := MakePlan(cwd, exePath, scriptPath, outputDir);
      var x, n := Abs(cwd, exePath), Abs(cwd, plan.newExe);
      var r := Organize(t, cwd, denied, exePath, scriptPath, outputDir);
      r.error.None? ==> r.path == plan.newExe && n in r.tree && r.tree[n] == t[x] && (x != n ==> x !in r.tree)
  {
    var plan := MakePlan(cwd, exePath, scriptPath, outputDir);
    var name := Basename(exePath);
    NamesOf(exePath, scriptPath);
    ExePlan(cwd, outputDir, name, Stem(name), Basename(scriptPath), exePath, scriptPath);
    var steps := Steps(exePath, scriptPath, plan);
    ExeRun(t, cwd, denied, steps, Abs(cwd, exePath), Abs(cwd, plan.newExe));
    FinishReports(Run(cwd, denied, Start(t), steps), plan, exePath);
  }

  /** The corrected organiser, on an exe named `<name>.exe` that is a file
      outside the `py_file` folder and whose new path is no directory: when
      nothing raises, it returns the new exe path, the exe's content is
      there and the old path is gone, wherever the build folders lie. */
  lemma OrganizeCorrectedKeepsExe(t: Tree, cwd: string, denied: set<string>,
                                  exePath: string, scriptPath: string, outputDir: string)
    requires ExeNamed(exePath)
    requires var plan := MakePlan(cwd, exePath, scriptPath, outputDir);
      var x, n := Abs(cwd, exePath), Abs(cwd, plan.newExe);
      IsFile(t, x) && !IsDir(t, n) && !Under(x, Abs(cwd, plan.pyFolder))
    ensures var plan := MakePlan(cwd, exePath, scriptPath, outputDir);
      var x, n := Abs(cwd, exePath), Abs(cwd, plan.newExe);
      var r := OrganizeCorrected(t, cwd, denied, exePath, scriptPath, outputDir);
      r.error.None? ==> r.path == plan.newExe && n in r.tree && r.tree[n] == t[x] && (x != n ==> x !in r.tree)
  {
    var plan := MakePlan(cwd, exePath, scriptPath, outputDir);
    var name := Basename(exePath);
    NamesOf(exePath, scriptPath);
    CorrectedExePlan(cwd, outputDir, name, Stem(name), Basename(scriptPath), exePath, scriptPath);
    var steps := CorrectedSteps(exePath, scriptPath, plan);
    ExeRun(t, cwd, denied, steps, Abs(cwd, exePath), Abs(cwd, plan.newExe));
    FinishReports(Run(cwd, denied, Start(t), steps), plan, exePath);
  }

  /** Eight steps whose first creates the folder `d`, whose next three only
      create, move or copy, and whose seventh is an `rmtree` of `d` among
      deletions. */
  predicate RemovesProject(cwd: string, steps: seq<Step>, d: string) {
    && |steps| == 8
    && steps[0].op.MakeDirsOp? && Abs(cwd, steps[0].op.path) == d
    && !Removal(steps[1].op) && !Removal(steps[2].op) && !Removal(steps[3].op)
    && Removal(steps[4].op) && Removal(steps[5].op)
    && steps[6].op.RemoveTreeOp? && Abs(cwd, steps[6].op.path) == d
    && Removal(steps[7].op)
  }

  /** Such a run, when nothing raises, leaves nothing inside `d`: the folder
      exists from the first step on, so the `rmtree` finds it and deletes it
      with everything in it. */
  lemma ProjectLost(t: Tree, cwd: string, denied: set<string>, steps: seq<Step>, d: string, k: string)
    ensures && RemovesProject(cwd, steps, d) && Under(k, d)
            && Run(cwd, denied, Start(t), steps).error.None?
            ==> k !in Run(cwd, denied, Start(t), steps).tree
  {
    var p := Start(t);
    ProjectBuilt(t, cwd, denied, steps, d);
    CleanBefore(cwd, denied, p, steps, 7);
    RootedAt(cwd, denied, p, steps, 4, d);
    RootedAt(cwd, denied, p, steps, 5, d);
    EmptiedAt(cwd, denied, p, steps, 6, k);
    ShrinksAt(cwd, denied, p, steps, 7, k);
  }

  /** The folder `d` is there when the deletions begin. */
  lemma ProjectBuilt(t: Tree, cwd: string, denied: set<string>, steps: seq<Step>, d: string)
    ensures && RemovesProject(cwd, steps, d) && Run(cwd, denied, Start(t), steps).error.None?
            ==> IsDir(After(cwd, denied, Start(t), steps, 4).tree, d)
  {
    var p := Start(t);
    if RemovesProject(cwd, steps, d) && Run(cwd, denied, p, steps).error.None? {
      ProjectMade(t, cwd, denied, steps, d);
      KeepsDirAt(cwd, denied, p, steps, 1, d);
      KeepsDirAt(cwd, denied, p, steps, 2, d);
      KeepsDirAt(cwd, denied, p, steps, 3, d);
    }
  }

  /** The first step creates the folder `d`. */
  lemma ProjectMade(t: Tree, cwd: string, denied: set<string>, steps: seq<Step>, d: string)
    ensures && RemovesProject(cwd, steps, d) && Run(cwd, denied, Start(t), steps).error.None?
            ==> IsDir(After(cwd, denied, Start(t), steps, 1).tree, d)
  {
    var p := Start(t);
    if RemovesProject(cwd, steps, d) && Run(cwd, denied, p, steps).error.None? {
      CleanBefore(cwd, denied, p, steps, 1);
      assert After(cwd, denied, p, steps, 0) == p;
      MadeAt(cwd, denied, p, steps, 0);
    }
  }

  lemma BuildExeName()
    ensures "build.exe" != [] && '/' !in "build.exe" && EndsWith("build.exe", ".exe")
    ensures Stem("build.exe") == "build"
  {
    assert "build.exe" == "build" + ".exe";
    assert "build"[0] != '.';
    assert ".exe"[1..] == "exe";
    StemAfterExtension("build", ".exe");
  }

  /** `organize_project` as written on an exe called `build.exe`: the
      project folder is `<output_dir>/build`, which is also the second
      build folder its cleanup deletes. When nothing raises, nothing inside
      the project folder is left, the exe it has just moved there included,
      so the path it returns does not exist. */
  lemma BuildNamedExeLost(t: Tree, cwd: string, denied: set<string>,
                          exePath: string, scriptPath: string, outputDir: string, k: string)
    requires Basename(exePath) == "build.exe"
    ensures var plan := MakePlan(cwd, exePath, scriptPath, outputDir);
      var r := Organize(t, cwd, denied, exePath, scriptPath, outputDir);
      && plan.project == plan.build2
      && (r.error.None? ==> Abs(cwd, r.path) !in r.tree)
      && (r.error.None? && Under(k, Abs(cwd, plan.project)) ==> k !in r.tree)
  {
    var plan := MakePlan(cwd, exePath, scriptPath, outputDir);
    var steps := Steps(exePath, scriptPath, plan);
    var d := Abs(cwd, plan.project);
    BuildPlan(cwd, exePath, scriptPath, outputDir);
    ProjectLost(t, cwd, denied, steps, d, k);
    ProjectLost(t, cwd, denied, steps, d, Abs(cwd, plan.newExe));
    FinishReports(Run(cwd, denied, Start(t), steps), plan, exePath);
  }

  /** With an exe called `build.exe` the project folder is the second build
      folder: the calls create it first and `rmtree` it seventh. */
  lemma BuildPlan(cwd: string, exePath: string, scriptPath: string, outputDir: string)
    requires Basename(exePath) == "build.exe"
    ensures var plan := MakePlan(cwd, exePath, scriptPath, outputDir);
      && plan.project == plan.build2
      && RemovesProject(cwd, Steps(exePath, scriptPath, plan), Abs(cwd, plan.project))
      && Under(Abs(cwd, plan.newExe), Abs(cwd, plan.project))
  {
    var plan := MakePlan(cwd, exePath, scriptPath, outputDir);
    BuildExeName();
    NewExeApart(cwd, outputDir, "build.exe", "build", Basename(scriptPath));
    StepsRemoveProject(cwd, exePath, scriptPath, plan);
  }

  lemma StepsRemoveProject(cwd: string, exePath: string, scriptPath: string, plan: Plan)
    ensures plan.project == plan.build2 ==>
      RemovesProject(cwd, Steps(exePath, scriptPath, plan), Abs(cwd, plan.project))
  {
  }

  /* The script's copy. */

  /** A move that raises nothing leaves alone every path other than its
      source and its destination, when the destination is no directory. */
  lemma MoveFrameStep(cwd: string, denied: set<string>, p: Progress, s: Step, x: string, n: string, k: string)
    requires s.op.MoveOp? && x == Abs(cwd, s.op.src) && n == Abs(cwd, s.op.dst)
    requires !IsDir(p.tree, n) && k != x && k != n
    requires Advance(cwd, denied, p, s).error.None?
    ensures Same(p.tree, Advance(cwd, denied, p, s).tree, k)
  {
  }

  lemma MoveFrameAt(cwd: string, denied: set<string>, p: Progress, steps: seq<Step>, i: int, x: string, n: string, k: string)
    ensures && 0 <= i < |steps| && steps[i].op.MoveOp?
            && x == Abs(cwd, steps[i].op.src) && n == Abs(cwd, steps[i].op.dst)
            && !IsDir(After(cwd, denied, p, steps, i).tree, n) && k != x && k != n
            && After(cwd, denied, p, steps, i + 1).error.None?
            ==> Same(After(cwd, denied, p, steps, i).tree, After(cwd, denied, p, steps, i + 1).tree, k)
  {
    if 0 <= i < |steps| {
      AfterStep(cwd, denied, p, steps, i);
      if && steps[i].op.MoveOp? && x == Abs(cwd, steps[i].op.src) && n == Abs(cwd, steps[i].op.dst)
         && !IsDir(After(cwd, denied, p, steps, i).tree, n) && k != x && k != n
         && After(cwd, denied, p, steps, i + 1).error.None? {
        MoveFrameStep(cwd, denied, After(cwd, denied, p, steps, i), steps[i], x, n, k);
      }
    }
  }

  /** The fourth of eight steps copies `s` to `d`; the two `makedirs` calls
      before it do not create `d`, and the move before it, of `x` to `n`,
      involves neither `s` nor `d`. */
  predicate CopiesScript(cwd: string, steps: seq<Step>, s: string, x: string, n: string, d: string) {
    && |steps| == 8
    && FoldersSpare(cwd, steps, 0, d)
    && steps[3].op.CopyOp? && Abs(cwd, steps[3].op.src) == s && Abs(cwd, steps[3].op.dst) == d
    && s != x && s != n && d != x && d != n
  }

  /** Steps `i` and `i + 1` are `makedirs` calls that do not create `k`. */
  predicate FoldersSpare(cwd: string, steps: seq<Step>, i: int, k: string) {
    && 0 <= i && i + 2 <= |steps|
    && steps[i].op.MakeDirsOp? && k !in Ancestors(Abs(cwd, steps[i].op.path))
    && steps[i + 1].op.MakeDirsOp? && k !in Ancestors(Abs(cwd, steps[i + 1].op.path))
  }

  /** No cleanup step touches `k`. */
  predicate SparedByCleanup(cwd: string, steps: seq<Step>, k: string) {
    && |steps| == 8
    && !Touches(cwd, steps[4].op, k) && !Touches(cwd, steps[5].op, k)
    && !Touches(cwd, steps[6].op, k) && !Touches(cwd, steps[7].op, k)
  }

  /** Before the copy the script still has its content and its destination
      is no directory. */
  lemma ScriptReady(t: Tree, cwd: string, denied: set<string>, steps: seq<Step>, s: string, x: string, n: string, d: string)
    ensures && MovesExe(cwd, steps, x, n) && CopiesScript(cwd, steps, s, x, n, d)
            && IsFile(t, s) && !IsDir(t, d) && !IsDir(t, n)
            && After(cwd, denied, Start(t), steps, 3).error.None?
            ==> var u := After(cwd, denied, Start(t), steps, 3).tree;
                s in u && u[s] == t[s] && !IsDir(u, d)
  {
    if && MovesExe(cwd, steps, x, n) && CopiesScript(cwd, steps, s, x, n, d)
       && IsFile(t, s) && !IsDir(t, d) && !IsDir(t, n) {
      assert After(cwd, denied, Start(t), steps, 0) == Start(t);
      ScriptReadyAt(cwd, denied, Start(t), steps, 0, 3, s, x, n, d);
    }
  }

  /** The same from step `i` to step `j == i + 3`: two `makedirs` calls
      that create neither `d` nor `n`, then the move of `x` to `n`. */
  lemma ScriptReadyAt(cwd: string, denied: set<string>, p: Progress, steps: seq<Step>, i: int, j: int,
                      s: string, x: string, n: string, d: string)
    ensures && j == i + 3 && MovesExeAt(cwd, steps, i, x, n) && FoldersSpare(cwd, steps, i, d)
            && s != x && s != n && d != x && d != n
            && IsFile(After(cwd, denied, p, steps, i).tree, s)
            && !IsDir(After(cwd, denied, p, steps, i).tree, d) && !IsDir(After(cwd, denied, p, steps, i).tree, n)
            && After(cwd, denied, p, steps, j).error.None?
            ==> var u, w := After(cwd, denied, p, steps, i).tree, After(cwd, denied, p, steps, j).tree;
                s in w && w[s] == u[s] && !IsDir(w, d)
  {
    if && j == i + 3 && MovesExeAt(cwd, steps, i, x, n) && FoldersSpare(cwd, steps, i, d)
       && s != x && s != n && d != x && d != n
       && IsFile(After(cwd, denied, p, steps, i).tree, s)
       && !IsDir(After(cwd, denied, p, steps, i).tree, d) && !IsDir(After(cwd, denied, p, steps, i).tree, n)
       && After(cwd, denied, p, steps, j).error.None? {
      var u, v := After(cwd, denied, p, steps, i).tree, After(cwd, denied, p, steps, i + 2).tree;
      FoldersKeep(cwd, denied, p, steps, i, s, d);
      FrameTwice(cwd, denied, p, steps, i, n);
      assert s in v && v[s] == u[s] && !IsDir(v, d) && !IsDir(v, n);
      assert i + 2 + 1 == j;
      MoveFrameAt(cwd, denied, p, steps, i + 2, x, n, s);
      MoveFrameAt(cwd, denied, p, steps, i + 2, x, n, d);
    }
  }

  /** A run of eight steps that copies the file `s` to `d`, whose cleanup
      spares `d`, ends, when nothing raises, with the content of `s` at `d`. */
  lemma ScriptRun(t: Tree, cwd: string, denied: set<string>, steps: seq<Step>, s: string, x: string, n: string, d: string)
    ensures && MovesExe(cwd, steps, x, n) && CopiesScript(cwd, steps, s, x, n, d) && SparedByCleanup(cwd, steps, d)
            && IsFile(t, s) && !IsDir(t, d) && !IsDir(t, n)
            && Run(cwd, denied, Start(t), steps).error.None?
            ==> Holds(Run(cwd, denied, Start(t), steps).tree, d, t, s)
  {
    var p := Start(t);
    CleanBefore(cwd, denied, p, steps, 3);
    CleanBefore(cwd, denied, p, steps, 4);
    ScriptReady(t, cwd, denied, steps, s, x, n, d);
    CopyAt(cwd, denied, p, steps, 3, s, d);
    FrameAt(cwd, denied, p, steps, 4, d);
    FrameAt(cwd, denied, p, steps, 5, d);
    FrameAt(cwd, denied, p, steps, 6, d);
    FrameAt(cwd, denied, p, steps, 7, d);
  }

  /** The copy leaves its source as it was: when source and destination
      resolve to the same path the call is skipped, and `copy2` otherwise
      only reads the source. */
  lemma CopySourceStep(cwd: string, denied: set<string>, p: Progress, s: Step, x: string)
    requires s.op.CopyOp? && x == Abs(cwd, s.op.src) && x in p.tree
    requires Advance(cwd, denied, p, s).error.None?
    ensures var u := Advance(cwd, denied, p, s).tree; x in u && u[x] == p.tree[x]
  {
  }

  /** `CopySourceStep` for the step at index `i` of a run. */
  lemma CopySourceAt(cwd: string, denied: set<string>, p: Progress, steps: seq<Step>, i: int, x: string)
    ensures && 0 <= i < |steps| && steps[i].op.CopyOp? && x == Abs(cwd, steps[i].op.src)
            && x in After(cwd, denied, p, steps, i).tree
            && After(cwd, denied, p, steps, i + 1).error.None?
            ==> var t, u := After(cwd, denied, p, steps, i).tree, After(cwd, denied, p, steps, i + 1).tree;
                x in u && u[x] == t[x]
  {
    if 0 <= i < |steps| {
      AfterStep(cwd, denied, p, steps, i);
      if && steps[i].op.CopyOp? && x == Abs(cwd, steps[i].op.src)
         && x in After(cwd, denied, p, steps, i).tree
         && After(cwd, denied, p, steps, i + 1).error.None? {
        CopySourceStep(cwd, denied, After(cwd, denied, p, steps, i), steps[i], x);
      }
    }
  }

  /** A run of eight steps that copies the file `s` and whose cleanup spares
      `s` ends, when nothing raises, with `s` as it was. */
  lemma ScriptKept(t: Tree, cwd: string, denied: set<string>, steps: seq<Step>, s: string, x: string, n: string, d: string)
    ensures && MovesExe(cwd, steps, x, n) && CopiesScript(cwd, steps, s, x, n, d) && SparedByCleanup(cwd, steps, s)
            && IsFile(t, s) && !IsDir(t, d) && !IsDir(t, n)
            && Run(cwd, denied, Start(t), steps).error.None?
            ==> Holds(Run(cwd, denied, Start(t), steps).tree, s, t, s)
  {
    var p := Start(t);
    CleanBefore(cwd, denied, p, steps, 3);
    CleanBefore(cwd, denied, p, steps, 4);
    ScriptReady(t, cwd, denied, steps, s, x, n, d);
    CopySourceAt(cwd, denied, p, steps, 3, s);
    FrameAt(cwd, denied, p, steps, 4, s);
    FrameAt(cwd, denied, p, steps, 5, s);
    FrameAt(cwd, denied, p, steps, 6, s);
    FrameAt(cwd, denied, p, steps, 7, s);
  }

  /** A path joined with a non-empty name ends as the name does. */
  lemma JoinLast(a: string, n: string)
    requires n != []
    ensures var j := Join(a, n); j != [] && j[|j| - 1] == n[|n| - 1]
  {
    if n[0] != '/' {
      assert Join(a, n) == WithSeparator(a) + n;
    }
  }

  /** Resolving a non-empty path keeps its last character. */
  lemma AbsLast(cwd: string, p: string)
    requires p != []
    ensures var r := Abs(cwd, p); r != [] && r[|r| - 1] == p[|p| - 1]
  {
    if p[0] != '/' {
      JoinLast(cwd, p);
    }
  }

  lemma ScriptLast(cwd: string, scriptPath: string, sn: string)
    requires EndsWith(sn, ".py") && EndsWith(scriptPath, sn)
    ensures var x := Abs(cwd, scriptPath); x != [] && x[|x| - 1] == 'y'
  {
    PyName(sn);
    assert scriptPath[|scriptPath| - 1] == sn[|sn| - 1];
    AbsLast(cwd, scriptPath);
  }

  lemma SpecLast(cwd: string, a: string, spec: string)
    requires spec != [] && '/' !in spec && spec[|spec| - 1] == 'c'
    ensures var r := Abs(cwd, Join(a, spec)); r != [] && r[|r| - 1] == 'c'
  {
    var j := Join(a, spec);
    assert j != [] && j[|j| - 1] == 'c' by {
      JoinLast(a, spec);
    }
    AbsLast(cwd, j);
  }

  lemma LastDiffers(a: string, b: string)
    requires a != [] && b != [] && a[|a| - 1] == 'y' && b[|b| - 1] == 'c'
    ensures a != b
  {
  }

  /** A script named `<name>.py` is neither `.spec` file, since its path
      ends in `y` and theirs in `c`. */
  lemma ScriptNotSpec(cwd: string, outputDir: string, name: string, base: string, scriptPath: string, sn: string)
    requires Names(name, base, sn) && EndsWith(sn, ".py") && EndsWith(scriptPath, sn)
    ensures var plan := PlanOf(cwd, outputDir, name, base, sn);
      var s := Abs(cwd, scriptPath);
      s != Abs(cwd, plan.spec) && s != Abs(cwd, plan.spec2)
  {
    SpecName(base);
    ScriptLast(cwd, scriptPath, sn);
    SpecLast(cwd, cwd, base + ".spec");
    SpecLast(cwd, outputDir, base + ".spec");
    LastDiffers(Abs(cwd, scriptPath), Abs(cwd, Join(cwd, base + ".spec")));
    LastDiffers(Abs(cwd, scriptPath), Abs(cwd, Join(outputDir, base + ".spec")));
  }

  lemma PyName(sn: string)
    requires EndsWith(sn, ".py")
    ensures sn != [] && sn[|sn| - 1] == 'y'
  {
    assert sn[|sn| - 1] == sn[|sn| - 3..][2];
  }

  /** An entry of a directory `q` is none of the folders `makedirs` creates
      for `q` or for a folder above it. */
  lemma EntryNotAncestor(q: string, e: string, p: string)
    requires q != [] && q[|q| - 1] != '/' && e != [] && '/' !in e && Under(q, p)
    ensures Join(q, e) !in Ancestors(p)
  {
    EntryUnder(q, e);
  }

  /** The script's destination, for a script named `<name>.py`: an entry of
      the `py_file` folder under the script's name, which neither `makedirs`
      call creates and which is not the new exe path. */
  lemma ScriptGeometry(cwd: string, outputDir: string, name: string, base: string, sn: string)
    ensures Names(name, base, sn) && EndsWith(sn, ".py") ==>
      var plan := PlanOf(cwd, outputDir, name, base, sn);
      var q, d := Abs(cwd, plan.pyFolder), Abs(cwd, plan.destPy);
      && Under(d, q) && d !in Ancestors(Abs(cwd, plan.project)) && d !in Ancestors(q)
      && d != Abs(cwd, plan.newExe) && Basename(d) == sn
  {
    if Names(name, base, sn) && EndsWith(sn, ".py") {
      var plan := PlanOf(cwd, outputDir, name, base, sn);
      var q := Abs(cwd, plan.pyFolder);
      Layout(cwd, outputDir, name, base, sn);
      PyFolderInside(cwd, outputDir, name, base, sn);
      PyName(sn);
      EntryNotAncestor(q, sn, Abs(cwd, plan.project));
      EntryNotAncestor(q, sn, q);
      NewExeApart(cwd, outputDir, name, base, sn);
      BasenameJoin(q, sn);
    }
  }

  /** A script named `<name>.py` is not copied onto either `.spec` file. */
  lemma ScriptMissesSpecs(cwd: string, outputDir: string, name: string, base: string, sn: string)
    ensures Names(name, base, sn) && EndsWith(sn, ".py") ==>
      var plan := PlanOf(cwd, outputDir, name, base, sn);
      var d := Abs(cwd, plan.destPy);
      d != Abs(cwd, plan.spec) && d != Abs(cwd, plan.spec2)
  {
    if Names(name, base, sn) && EndsWith(sn, ".py") {
      ScriptGeometry(cwd, outputDir, name, base, sn);
      CleanupNames(cwd, outputDir, name, base, sn);
      PyName(sn);
      BasenameJoin(Abs(cwd, cwd), base + ".spec");
      BasenameJoin(Abs(cwd, outputDir), base + ".spec");
    }
  }

  /** Both build folders are called `build`. */
  lemma BuildBasenames(cwd: string, outputDir: string, name: string, base: string, sn: string)
    ensures Names(name, base, sn) ==>
      var plan := PlanOf(cwd, outputDir, name, base, sn);
      Basename(Abs(cwd, plan.build)) == "build" && Basename(Abs(cwd, plan.build2)) == "build"
  {
    if Names(name, base, sn) {
      CleanupNames(cwd, outputDir, name, base, sn);
      BuildName();
      BasenameJoin(Abs(cwd, cwd), "build");
      BasenameJoin(Abs(cwd, outputDir), "build");
    }
  }

  /** A folder called `build` that holds the script's destination holds the
      project folder as well, so the sparing `rmtree` leaves it alone. */
  lemma SparingMissesScript(cwd: string, outputDir: string, name: string, base: string, sn: string, b: string)
    ensures var plan := PlanOf(cwd, outputDir, name, base, sn);
      Names(name, base, sn) && EndsWith(sn, ".py") && Basename(b) == "build" ==>
      !(Under(Abs(cwd, plan.destPy), b) && !Under(Abs(cwd, plan.project), b))
  {
    if Names(name, base, sn) && EndsWith(sn, ".py") && Basename(b) == "build" {
      var plan := PlanOf(cwd, outputDir, name, base, sn);
      Layout(cwd, outputDir, name, base, sn);
      PyName(sn);
      SparingMissesEntry(Abs(cwd, plan.project), sn, b);
    }
  }

  lemma SparingMissesEntry(p: string, sn: string, b: string)
    requires p != [] && p[|p| - 1] != '/'
    requires sn != [] && '/' !in sn && sn[|sn| - 1] == 'y'
    requires Basename(b) == "build"
    ensures !(Under(Join(Join(p, "py_file"), sn), b) && !Under(p, b))
  {
    var q := Join(p, "py_file");
    PyFolderUnder(p);
    UnderParent(q, sn, b);
    UnderParent(p, "py_file", b);
    BasenameJoin(p, "py_file");
    BasenameJoin(q, sn);
    BuildNotPyFile();
  }

  lemma BuildNotPyFile()
    ensures "build" != "py_file" && "build" != [] && "build"[4] != 'y'
  {
  }

  /** Where the script goes in the calls of `organize_project`. */
  lemma ScriptPlan(cwd: string, outputDir: string, name: string, base: string, sn: string,
                   exePath: string, scriptPath: string)
    ensures Names(name, base, sn) ==>
      var plan := PlanOf(cwd, outputDir, name, base, sn);
      var s, x := Abs(cwd, scriptPath), Abs(cwd, exePath);
      var n, d := Abs(cwd, plan.newExe), Abs(cwd, plan.destPy);
      var st := Steps(exePath, scriptPath, plan);
      && (EndsWith(sn, ".py") && s != x && s != n && !Under(x, Abs(cwd, plan.pyFolder)) ==>
            CopiesScript(cwd, st, s, x, n, d))
      && (EndsWith(sn, ".py") && !Under(d, Abs(cwd, plan.build)) && !Under(d, Abs(cwd, plan.build2)) ==>
            SparedByCleanup(cwd, st, d))
  {
    if Names(name, base, sn) {
      var plan := PlanOf(cwd, outputDir, name, base, sn);
      StepsAre(exePath, scriptPath, plan);
      ScriptCopiedBy(cwd, outputDir, name, base, sn, exePath, scriptPath, Steps(exePath, scriptPath, plan));
      ScriptMissesSpecs(cwd, outputDir, name, base, sn);
    }
  }

  /** Steps that begin as `organize_project` does copy the script to its
      place in the `py_file` folder. */
  lemma ScriptCopiedBy(cwd: string, outputDir: string, name: string, base: string, sn: string,
                       exePath: string, scriptPath: string, st: seq<Step>)
    ensures Names(name, base, sn) && Prepares(exePath, scriptPath, PlanOf(cwd, outputDir, name, base, sn), st) ==>
      var plan := PlanOf(cwd, outputDir, name, base, sn);
      var s, x := Abs(cwd, scriptPath), Abs(cwd, exePath);
      var n, d := Abs(cwd, plan.newExe), Abs(cwd, plan.destPy);
      EndsWith(sn, ".py") && s != x && s != n && !Under(x, Abs(cwd, plan.pyFolder)) ==>
        CopiesScript(cwd, st, s, x, n, d)
  {
    ScriptGeometry(cwd, outputDir, name, base, sn);
  }

  /** The same for the corrected organiser, whose cleanup spares the
      script's copy in every case. */
  lemma CorrectedScriptPlan(cwd: string, outputDir: string, name: string, base: string, sn: string,
                            exePath: string, scriptPath: string)
    ensures Names(name, base, sn) ==>
      var plan := PlanOf(cwd, outputDir, name, base, sn);
      var s, x := Abs(cwd, scriptPath), Abs(cwd, exePath);
      var n, d := Abs(cwd, plan.newExe), Abs(cwd, plan.destPy);
      var st := CorrectedSteps(exePath, scriptPath, plan);
      && (EndsWith(sn, ".py") && s != x && s != n && !Under(x, Abs(cwd, plan.pyFolder)) ==>
            CopiesScript(cwd, st, s, x, n, d))
      && (EndsWith(sn, ".py") ==> SparedByCleanup(cwd, st, d))
  {
    if Names(name, base, sn) {
      var plan := PlanOf(cwd, outputDir, name, base, sn);
      CorrectedStepsAre(exePath, scriptPath, plan);
      ScriptCopiedBy(cwd, outputDir, name, base, sn, exePath, scriptPath, CorrectedSteps(exePath, scriptPath, plan));
      CorrectedCleanupSpares(cwd, outputDir, name, base, sn, exePath, scriptPath);
    }
  }

  /** The corrected cleanup leaves the script's copy alone. */
  lemma CorrectedCleanupSpares(cwd: string, outputDir: string, name: string, base: string, sn: string,
                               exePath: string, scriptPath: string)
    ensures Names(name, base, sn) && EndsWith(sn, ".py") ==>
      var plan := PlanOf(cwd, outputDir, name, base, sn);
      SparedByCleanup(cwd, CorrectedSteps(exePath, scriptPath, plan), Abs(cwd, plan.destPy))
  {
    if Names(name, base, sn) && EndsWith(sn, ".py") {
      var plan := PlanOf(cwd, outputDir, name, base, sn);
      CorrectedStepsAre(exePath, scriptPath, plan);
      ScriptMissesSpecs(cwd, outputDir, name, base, sn);
      BuildBasenames(cwd, outputDir, name, base, sn);
      SparingMissesScript(cwd, outputDir, name, base, sn, Abs(cwd, plan.build));
      SparingMissesScript(cwd, outputDir, name, base, sn, Abs(cwd, plan.build2));
    }
  }

  /** `organize_project` as written, for a script named `<name>.py` that is
      a file other than the exe and its new path, with the exe outside the
      `py_file` folder and the script's destination in neither build folder
      and no directory: when nothing raises, the script's content is at
      `py_file/<script name>`, and the script itself is still there unless
      a build folder holds it. */
  lemma OrganizeCopiesScript(t: Tree, cwd: string, denied: set<string>,
                             exePath: string, scriptPath: string, outputDir: string)
    requires ExeNamed(exePath) && EndsWith(Basename(scriptPath), ".py")
    requires var plan := MakePlan(cwd, exePath, scriptPath, outputDir);
      var s, x := Abs(cwd, scriptPath), Abs(cwd, exePath);
      var n, d := Abs(cwd, plan.newExe), Abs(cwd, plan.destPy);
      && IsFile(t, s) && !IsDir(t, d) && !IsDir(t, n) && s != x && s != n
      && !Under(x, Abs(cwd, plan.pyFolder))
      && !Under(d, Abs(cwd, plan.build)) && !Under(d, Abs(cwd, plan.build2))
    ensures var plan := MakePlan(cwd, exePath, scriptPath, outputDir);
      var r := Organize(t, cwd, denied, exePath, scriptPath, outputDir);
      var s, d := Abs(cwd, scriptPath), Abs(cwd, plan.destPy);
      r.error.None? ==> Holds(r.tree, d, t, s)
    ensures var plan := MakePlan(cwd, exePath, scriptPath, outputDir);
      var r := Organize(t, cwd, denied, exePath, scriptPath, outputDir);
      var s := Abs(cwd, scriptPath);
      r.error.None? && !Under(s, Abs(cwd, plan.build)) && !Under(s, Abs(cwd, plan.build2)) ==>
        Holds(r.tree, s, t, s)
  {
    var plan := MakePlan(cwd, exePath, scriptPath, outputDir);
    ScriptCopied(t, cwd, denied, exePath, scriptPath, outputDir);
    ScriptLeft(t, cwd, denied, exePath, scriptPath, outputDir);
    FinishReports(Run(cwd, denied, Start(t), Steps(exePath, scriptPath, plan)), plan, exePath);
  }

  /** The cleanup of `organize_project` spares a path in neither build
      folder and on neither `.spec` file. */
  lemma CleanupSpares(cwd: string, exePath: string, scriptPath: string, plan: Plan, k: string)
    requires !Under(k, Abs(cwd, plan.build)) && !Under(k, Abs(cwd, plan.build2))
    requires k != Abs(cwd, plan.spec) && k != Abs(cwd, plan.spec2)
    ensures SparedByCleanup(cwd, Steps(exePath, scriptPath, plan), k)
  {
    StepsAre(exePath, scriptPath, plan);
  }

  /** The script itself is still in place after a run that raised nothing,
      unless a build folder held it. */
  lemma ScriptLeft(t: Tree, cwd: string, denied: set<string>,
                   exePath: string, scriptPath: string, outputDir: string)
    ensures var plan := MakePlan(cwd, exePath, scriptPath, outputDir);
      var s, x := Abs(cwd, scriptPath), Abs(cwd, exePath);
      var n, d := Abs(cwd, plan.newExe), Abs(cwd, plan.destPy);
      var steps := Steps(exePath, scriptPath, plan);
      && ExeNamed(exePath) && EndsWith(Basename(scriptPath), ".py")
      && IsFile(t, s) && !IsDir(t, d) && !IsDir(t, n) && s != x && s != n
      && !Under(x, Abs(cwd, plan.pyFolder))
      && !Under(s, Abs(cwd, plan.build)) && !Under(s, Abs(cwd, plan.build2))
      && Run(cwd, denied, Start(t), steps).error.None?
      ==> Holds(Run(cwd, denied, Start(t), steps).tree, s, t, s)
  {
    var plan := MakePlan(cwd, exePath, scriptPath, outputDir);
    var name := Basename(exePath);
    if ExeNamed(exePath) {
      NamesOf(exePath, scriptPath);
      ExePlan(cwd, outputDir, name, Stem(name), Basename(scriptPath), exePath, scriptPath);
      ScriptPlan(cwd, outputDir, name, Stem(name), Basename(scriptPath), exePath, scriptPath);
      var s, sn := Abs(cwd, scriptPath), Basename(scriptPath);
      if && EndsWith(sn, ".py")
         && !Under(s, Abs(cwd, plan.build)) && !Under(s, Abs(cwd, plan.build2)) {
        ScriptNotSpec(cwd, outputDir, name, Stem(name), scriptPath, sn);
        CleanupSpares(cwd, exePath, scriptPath, plan, s);
      }
      ScriptKept(t, cwd, denied, Steps(exePath, scriptPath, plan), Abs(cwd, scriptPath), Abs(cwd, exePath), Abs(cwd, plan.newExe), Abs(cwd, plan.destPy));
    }
  }

  lemma ScriptCopied(t: Tree, cwd: string, denied: set<string>,
                     exePath: string, scriptPath: string, outputDir: string)
    ensures var plan := MakePlan(cwd, exePath, scriptPath, outputDir);
      var s, x := Abs(cwd, scriptPath), Abs(cwd, exePath);
      var n, d := Abs(cwd, plan.newExe), Abs(cwd, plan.destPy);
      var steps := Steps(exePath, scriptPath, plan);
      && ExeNamed(exePath) && EndsWith(Basename(scriptPath), ".py")
      && IsFile(t, s) && !IsDir(t, d) && !IsDir(t, n) && s != x && s != n
      && !Under(x, Abs(cwd, plan.pyFolder))
      && !Under(d, Abs(cwd, plan.build)) && !Under(d, Abs(cwd, plan.build2))
      && Run(cwd, denied, Start(t), steps).error.None?
      ==> Holds(Run(cwd, denied, Start(t), steps).tree, d, t, s)
  {
    var plan := MakePlan(cwd, exePath, scriptPath, outputDir);
    var name := Basename(exePath);
    if ExeNamed(exePath) {
      NamesOf(exePath, scriptPath);
      ExePlan(cwd, outputDir, name, Stem(name), Basename(scriptPath), exePath, scriptPath);
      ScriptPlan(cwd, outputDir, name, Stem(name), Basename(scriptPath), exePath, scriptPath);
      ScriptRun(t, cwd, denied, Steps(exePath, scriptPath, plan), Abs(cwd, scriptPath), Abs(cwd, exePath), Abs(cwd, plan.newExe), Abs(cwd, plan.destPy));
    }
  }


  /** The corrected organiser copies the script in the same way, wherever
      the build folders lie. */
  lemma OrganizeCorrectedCopiesScript(t: Tree, cwd: string, denied: set<string>,
                                      exePath: string, scriptPath: string, outputDir: string)
    requires ExeNamed(exePath) && EndsWith(Basename(scriptPath), ".py")
    requires var plan := MakePlan(cwd, exePath, scriptPath, outputDir);
      var s, x := Abs(cwd, scriptPath), Abs(cwd, exePath);
      var n, d := Abs(cwd, plan.newExe), Abs(cwd, plan.destPy);
      && IsFile(t, s) && !IsDir(t, d) && !IsDir(t, n) && s != x && s != n
      && !Under(x, Abs(cwd, plan.pyFolder))
    ensures var plan := MakePlan(cwd, exePath, scriptPath, outputDir);
      var r := OrganizeCorrected(t, cwd, denied, exePath, scriptPath, outputDir);
      var s, d := Abs(cwd, scriptPath), Abs(cwd, plan.destPy);
      r.error.None? ==> Holds(r.tree, d, t, s)
  {
    var plan := MakePlan(cwd, exePath, scriptPath, outputDir);
    CorrectedScriptCopied(t, cwd, denied, exePath, scriptPath, outputDir);
    FinishReports(Run(cwd, denied, Start(t), CorrectedSteps(exePath, scriptPath, plan)), plan, exePath);
  }

  lemma CorrectedScriptCopied(t: Tree, cwd: string, denied: set<string>,
                              exePath: string, scriptPath: string, outputDir: string)
    ensures var plan := MakePlan(cwd, exePath, scriptPath, outputDir);
      var s, x := Abs(cwd, scriptPath), Abs(cwd, exePath);
      var n, d := Abs(cwd, plan.newExe), Abs(cwd, plan.destPy);
      var steps := CorrectedSteps(exePath, scriptPath, plan);
      && ExeNamed(exePath) && EndsWith(Basename(scriptPath), ".py")
      && IsFile(t, s) && !IsDir(t, d) && !IsDir(t, n) && s != x && s != n
      && !Under(x, Abs(cwd, plan.pyFolder))
      && Run(cwd, denied, Start(t), steps).error.None?
      ==> Holds(Run(cwd, denied, Start(t), steps).tree, d, t, s)
  {
    var plan := MakePlan(cwd, exePath, scriptPath, outputDir);
    var name := Basename(exePath);
    if ExeNamed(exePath) {
      NamesOf(exePath, scriptPath);
      CorrectedExePlan(cwd, outputDir, name, Stem(name), Basename(scriptPath), exePath, scriptPath);
      CorrectedScriptPlan(cwd, outputDir, name, Stem(name), Basename(scriptPath), exePath, scriptPath);
      ScriptRun(t, cwd, denied, CorrectedSteps(exePath, scriptPath, plan), Abs(cwd, scriptPath), Abs(cwd, exePath), Abs(cwd, plan.newExe), Abs(cwd, plan.destPy));
    }
  }


  /* The cleanup. */

  /** A path absent once the cleanup has reached step `i` stays absent. */
  lemma {:induction false} StaysGone(p: Progress, cwd: string, denied: set<string>, steps: seq<Step>, i: int, k: string)
    ensures CleansUp(steps) && 5 <= i <= 8 && k !in After(cwd, denied, p, steps, i).tree ==>
      k !in Run(cwd, denied, p, steps).tree
    decreases 8 - i
  {
    if CleansUp(steps) && 5 <= i < 8 && k !in After(cwd, denied, p, steps, i).tree {
      ShrinksAt(cwd, denied, p, steps, i, k);
      StaysGone(p, cwd, denied, steps, i + 1, k);
    }
  }

  /** The path each cleanup step names is gone at the end of a run that
      raises nothing, unless the step spares it. */
  lemma CleanupGone(t: Tree, cwd: string, denied: set<string>, steps: seq<Step>, i: int)
    ensures && CleansUp(steps) && 4 <= i < 8
            && (steps[i].op.RemoveTreeSparingOp? ==>
                  !Under(Abs(cwd, steps[i].op.keep), Abs(cwd, steps[i].op.path)))
            && Run(cwd, denied, Start(t), steps).error.None?
            ==> Abs(cwd, steps[i].op.path) !in Run(cwd, denied, Start(t), steps).tree
  {
    if CleansUp(steps) && 4 <= i < 8 {
      var p := Start(t);
      CleanBefore(cwd, denied, p, steps, i + 1);
      RemovedAt(cwd, denied, p, steps, i);
      StaysGone(p, cwd, denied, steps, i + 1, Abs(cwd, steps[i].op.path));
    }
  }

  /** The four cleanup steps together: each named path is gone at the end
      of a run that raises nothing, unless its step spares it. */
  lemma CleanupRun(t: Tree, cwd: string, denied: set<string>, steps: seq<Step>)
    ensures CleansUp(steps) && Run(cwd, denied, Start(t), steps).error.None? ==>
      var u := Run(cwd, denied, Start(t), steps).tree;
      && (Spares(cwd, steps[4].op) || Abs(cwd, steps[4].op.path) !in u)
      && (Spares(cwd, steps[5].op) || Abs(cwd, steps[5].op.path) !in u)
      && (Spares(cwd, steps[6].op) || Abs(cwd, steps[6].op.path) !in u)
      && (Spares(cwd, steps[7].op) || Abs(cwd, steps[7].op.path) !in u)
  {
    CleanupGone(t, cwd, denied, steps, 4);
    CleanupGone(t, cwd, denied, steps, 5);
    CleanupGone(t, cwd, denied, steps, 6);
    CleanupGone(t, cwd, denied, steps, 7);
  }

  /** A removal that keeps what it names, because the folder it must
      spare lies inside it. */
  predicate Spares(cwd: string, op: Op) {
    op.RemoveTreeSparingOp? && Under(Abs(cwd, op.keep), Abs(cwd, op.path))
  }

  /** The cleanup of `organize_project` on its own plan. */
  lemma CleanedUp(t: Tree, cwd: string, denied: set<string>, exePath: string, scriptPath: string, plan: Plan)
    ensures var run := Run(cwd, denied, Start(t), Steps(exePath, scriptPath, plan));
      run.error.None? ==>
        && Abs(cwd, plan.build) !in run.tree && Abs(cwd, plan.spec) !in run.tree
        && Abs(cwd, plan.build2) !in run.tree && Abs(cwd, plan.spec2) !in run.tree
  {
    StepsAre(exePath, scriptPath, plan);
    CleanupRun(t, cwd, denied, Steps(exePath, scriptPath, plan));
  }

  /** The cleanup of the corrected organiser on its own plan. */
  lemma CorrectedCleanedUp(t: Tree, cwd: string, denied: set<string>, exePath: string, scriptPath: string, plan: Plan)
    ensures var run := Run(cwd, denied, Start(t), CorrectedSteps(exePath, scriptPath, plan));
      var p := Abs(cwd, plan.project);
      run.error.None? ==>
        && (!Under(p, Abs(cwd, plan.build)) ==> Abs(cwd, plan.build) !in run.tree)
        && Abs(cwd, plan.spec) !in run.tree
        && (!Under(p, Abs(cwd, plan.build2)) ==> Abs(cwd, plan.build2) !in run.tree)
        && Abs(cwd, plan.spec2) !in run.tree
  {
    CorrectedStepsAre(exePath, scriptPath, plan);
    CleanupRun(t, cwd, denied, CorrectedSteps(exePath, scriptPath, plan));
  }

  /** `organize_project` as written: when nothing raises, both build
      folders and both `.spec` files are gone. */
  lemma OrganizeCleansUp(t: Tree, cwd: string, denied: set<string>,
                         exePath: string, scriptPath: string, outputDir: string)
    ensures var plan := MakePlan(cwd, exePath, scriptPath, outputDir);
      var r := Organize(t, cwd, denied, exePath, scriptPath, outputDir);
      r.error.None? ==>
        && Abs(cwd, plan.build) !in r.tree && Abs(cwd, plan.spec) !in r.tree
        && Abs(cwd, plan.build2) !in r.tree && Abs(cwd, plan.spec2) !in r.tree
  {
    var plan := MakePlan(cwd, exePath, scriptPath, outputDir);
    CleanedUp(t, cwd, denied, exePath, scriptPath, plan);
    FinishReports(Run(cwd, denied, Start(t), Steps(exePath, scriptPath, plan)), plan, exePath);
  }

  /** The corrected organiser: when nothing raises, both `.spec` files are
      gone, and so is each build folder that does not hold the project
      folder. */
  lemma OrganizeCorrectedCleansUp(t: Tree, cwd: string, denied: set<string>,
                                  exePath: string, scriptPath: string, outputDir: string)
    ensures var plan := MakePlan(cwd, exePath, scriptPath, outputDir);
      var r := OrganizeCorrected(t, cwd, denied, exePath, scriptPath, outputDir);
      var p := Abs(cwd, plan.project);
      r.error.None? ==>
        && (!Under(p, Abs(cwd, plan.build)) ==> Abs(cwd, plan.build) !in r.tree)
        && Abs(cwd, plan.spec) !in r.tree
        && (!Under(p, Abs(cwd, plan.build2)) ==> Abs(cwd, plan.build2) !in r.tree)
        && Abs(cwd, plan.spec2) !in r.tree
  {
    var plan := MakePlan(cwd, exePath, scriptPath, outputDir);
    CorrectedCleanedUp(t, cwd, denied, exePath, scriptPath, plan);
    FinishReports(Run(cwd, denied, Start(t), CorrectedSteps(exePath, scriptPath, plan)), plan, exePath);
  }
}
