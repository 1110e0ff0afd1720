/**
 * `MainWindow.organize_project` as a function of the file system: the eight
 * file-system calls it makes, each behind the test that guards it, run in
 * order until one raises. The whole body is one `try` block, so the first
 * exception ends the run and the original exe path is returned; calls made
 * before it keep their effect.
 */
module Organizer {
  import opened Wrappers
  import opened Paths
  import opened Files

  /** One file-system call, on the paths as the code writes them. */
  datatype Op =
    | MakeDirsOp(path: string)
    | MoveOp(src: string, dst: string)
    | CopyOp(src: string, dst: string)
    | RemoveTreeOp(path: string)
    | RemoveOp(path: string)
      /** `rmtree` of a build folder that spares one holding `keep`; used
          only by the corrected organiser. */
    | RemoveTreeSparingOp(path: string, keep: string)

  /** A call and the log entries it adds once it has succeeded. */
  datatype Step = Step(op: Op, line: seq<string>)

  /** The paths `organize_project` derives from its arguments. */
  datatype Plan = Plan(exeName: string, base: string, project: string, pyFolder: string,
                       newExe: string, destPy: string,
                       build: string, spec: string, build2: string, spec2: string)

  /** The paths derived from the exe's file name, its stem and the script's
      file name. */
  function PlanOf(cwd: string, outputDir: string, exeName: string, base: string, scriptName: string): Plan {
    var project := Join(outputDir, base);
    var pyFolder := Join(project, "py_file");
    Plan(exeName, base, project, pyFolder,
         Join(project, exeName), Join(pyFolder, scriptName),
         Join(cwd, "build"), Join(cwd, base + ".spec"),
         Join(outputDir, "build"), Join(outputDir, base + ".spec"))
  }

  function MakePlan(cwd: string, exePath: string, scriptPath: string, outputDir: string): Plan {
    var exeName := Basename(exePath);
    PlanOf(cwd, outputDir, exeName, Stem(exeName), Basename(scriptPath))
  }

  const MovedPrefix: string := "📦 EXE verschoben nach: "
  const CopiedPrefix: string := "📁 Python-Datei kopiert nach: "
  const BuildRemovedLine: string := "🗑️ Build-Ordner gelöscht\n"
  const SpecRemovedLine: string := "🗑️ Spec-Datei gelöscht\n"
  const OrganizedPrefix: string := "✅ Projekt organisiert in: "
  const FailurePrefix: string := "⚠️ Fehler beim Organisieren: "

  /** The calls in the order the code makes them. */
  function Steps(exePath: string, scriptPath: string, plan: Plan): seq<Step> {
    PrepareSteps(exePath, scriptPath, plan) + CleanupSteps(plan)
  }

  /** The first four calls: the two folders, the move and the copy. */
  function PrepareSteps(exePath: string, scriptPath: string, plan: Plan): seq<Step> {
    [ Step(MakeDirsOp(plan.project), []),
      Step(MakeDirsOp(plan.pyFolder), []),
      Step(MoveOp(exePath, plan.newExe), [MovedPrefix + plan.newExe + "\n"]),
      Step(CopyOp(scriptPath, plan.destPy), [CopiedPrefix + plan.destPy + "\n"]) ]
  }

  /** The last four calls, which clear the build leftovers from the working
      and the output directory. */
  function CleanupSteps(plan: Plan): seq<Step> {
    [ Step(RemoveTreeOp(plan.build), [BuildRemovedLine]),
      Step(RemoveOp(plan.spec), [SpecRemovedLine]),
      Step(RemoveTreeOp(plan.build2), []),
      Step(RemoveOp(plan.spec2), []) ]
  }

  /** Whether the code makes the call, by the test in front of it. */
  predicate Due(t: Tree, cwd: string, op: Op) {
    match op
    case MakeDirsOp(_) => true
    case MoveOp(s, d) => Abs(cwd, s) in t && Abs(cwd, s) != Abs(cwd, d)
    case CopyOp(s, d) => Abs(cwd, s) != Abs(cwd, d)
    case RemoveTreeOp(p) => Abs(cwd, p) in t
    case RemoveOp(p) => Abs(cwd, p) in t
    case RemoveTreeSparingOp(p, keep) => Abs(cwd, p) in t && !Under(Abs(cwd, keep), Abs(cwd, p))
  }

  /** The call itself, on the resolved paths. */
  function Perform(t: Tree, cwd: string, denied: set<string>, op: Op): Outcome {
    match op
    case MakeDirsOp(p) => MakeDirsOutcome(t, denied, Abs(cwd, p))
    case MoveOp(s, d) => MoveOutcome(t, denied, Abs(cwd, s), Abs(cwd, d))
    case CopyOp(s, d) => CopyOutcome(t, denied, Abs(cwd, s), Abs(cwd, d))
    case RemoveTreeOp(p) => RemoveTreeOutcome(t, denied, Abs(cwd, p))
    case RemoveOp(p) => RemoveOutcome(t, denied, Abs(cwd, p))
    case RemoveTreeSparingOp(p, _) => RemoveTreeOutcome(t, denied, Abs(cwd, p))
  }

  /** The paths a call may add, change or delete. */
  predicate Touches(cwd: string, op: Op, k: string) {
    match op
    case MakeDirsOp(p) => k in Ancestors(Abs(cwd, p))
    case MoveOp(s, d) => k == Abs(cwd, s) || k == Abs(cwd, d) || k == Join(Abs(cwd, d), Basename(Abs(cwd, s)))
    case CopyOp(s, d) => k == Abs(cwd, d) || k == Join(Abs(cwd, d), Basename(Abs(cwd, s)))
    case RemoveTreeOp(p) => Under(k, Abs(cwd, p))
    case RemoveOp(p) => k == Abs(cwd, p)
    case RemoveTreeSparingOp(p, keep) => Under(k, Abs(cwd, p)) && !Under(Abs(cwd, keep), Abs(cwd, p))
  }

  /** Calls that only delete. */
  predicate Removal(op: Op) {
    op.RemoveTreeOp? || op.RemoveOp? || op.RemoveTreeSparingOp?
  }

  /** Where a run stands: the file system, the log so far and the exception
      that ended it, if any. */
  datatype Progress = Progress(tree: Tree, log: seq<string>, error: Option<Error>)

  /** One step: skipped after an exception or when its test fails; else the
      call is made and its log entries follow it, or its exception ends the
      run with the file system as it was. */
  function Advance(cwd: string, denied: set<string>, p: Progress, s: Step): Progress {
    if p.error.Some? || !Due(p.tree, cwd, s.op) then p
    else match Perform(p.tree, cwd, denied, s.op)
      case Done(t) => Progress(t, p.log + s.line, None)
      case Failed(e) => Progress(p.tree, p.log, Some(e))
  }

  function Run(cwd: string, denied: set<string>, p: Progress, steps: seq<Step>): Progress
    decreases |steps|
  {
    if steps == [] then p else Run(cwd, denied, Advance(cwd, denied, p, steps[0]), steps[1..])
  }

  /** What `organize_project` leaves behind: the file system, the log
      entries it appended, the path it returns and the exception it caught. */
  datatype Organized = Organized(tree: Tree, log: seq<string>, path: string, error: Option<Error>)

  function Finish(p: Progress, plan: Plan, exePath: string): Organized {
    match p.error
    case None => Organized(p.tree, p.log + [OrganizedPrefix + plan.project + "\n"], plan.newExe, None)
    case Some(e) => Organized(p.tree, p.log + [FailurePrefix + ErrorText(e) + "\n"], exePath, Some(e))
  }

  /** `organize_project(exe_path, script_path, output_dir)` on the file
      system `t`, with working directory `cwd`. */
  function Organize(t: Tree, cwd: string, denied: set<string>,
                    exePath: string, scriptPath: string, outputDir: string): (r: Organized)
    ensures var plan := MakePlan(cwd, exePath, scriptPath, outputDir);
      && r.log != []
      && (r.error.None? ==> r.path == plan.newExe && r.log[|r.log| - 1] == OrganizedPrefix + plan.project + "\n")
      && (r.error.Some? ==> r.path == exePath && r.log[|r.log| - 1] == FailurePrefix + ErrorText(r.error.value) + "\n")
  {
    var plan := MakePlan(cwd, exePath, scriptPath, outputDir);
    var p := Run(cwd, denied, Progress(t, [], None), Steps(exePath, scriptPath, plan));
    FinishReports(p, plan, exePath);
    Finish(p, plan, exePath)
  }

  /** The organiser with the cleanup corrected: a build folder that holds
      the project folder is left in place, where `organize_project` deletes
      it together with the project. */
  function CorrectedSteps(exePath: string, scriptPath: string, plan: Plan): seq<Step> {
    Steps(exePath, scriptPath, plan)
      [4 := Step(RemoveTreeSparingOp(plan.build, plan.project), [BuildRemovedLine])]
      [6 := Step(RemoveTreeSparingOp(plan.build2, plan.project), [])]
  }

  function OrganizeCorrected(t: Tree, cwd: string, denied: set<string>,
                             exePath: string, scriptPath: string, outputDir: string): Organized
  {
    var plan := MakePlan(cwd, exePath, scriptPath, outputDir);
    Finish(Run(cwd, denied, Progress(t, [], None), CorrectedSteps(exePath, scriptPath, plan)), plan, exePath)
  }

  /** The state a run has reached before step `i`: the first `i` steps run
      (none for `i <= 0`, all of them from `i == |steps|` on). */
  function After(cwd: string, denied: set<string>, p: Progress, steps: seq<Step>, i: int): Progress {
    if i <= 0 then p
    else if i < |steps| then Run(cwd, denied, p, steps[..i])
    else Run(cwd, denied, p, steps)
  }

  /** Running two lists of steps one after the other is running them joined. */
  lemma {:induction false} RunAppend(cwd: string, denied: set<string>, p: Progress, a: seq<Step>, b: seq<Step>)
    ensures Run(cwd, denied, p, a + b) == Run(cwd, denied, Run(cwd, denied, p, a), b)
    decreases |a|
  {
    if a != [] {
      assert (a + b)[0] == a[0] && (a + b)[1..] == a[1..] + b;
      RunAppend(cwd, denied, Advance(cwd, denied, p, a[0]), a[1..], b);
    } else {
      assert a + b == b;
    }
  }

  /** Each step takes the state before it to the state after it. */
  lemma AfterStep(cwd: string, denied: set<string>, p: Progress, steps: seq<Step>, i: int)
    ensures 0 <= i < |steps| ==>
      After(cwd, denied, p, steps, i + 1) == Advance(cwd, denied, After(cwd, denied, p, steps, i), steps[i])
  {
    if 0 <= i < |steps| {
      assert steps[..0] == [];
      assert steps[..|steps|] == steps;
      assert steps[..i + 1] == steps[..i] + [steps[i]];
      RunAppend(cwd, denied, p, steps[..i], [steps[i]]);
      assert [steps[i]][1..] == [];
    }
  }

  /** `p` with `l` in front of its log. */
  function ShiftLog(p: Progress, l: seq<string>): Progress {
    Progress(p.tree, l + p.log, p.error)
  }

  /** What was logged before a step does not change what the step does. */
  lemma AdvanceShift(cwd: string, denied: set<string>, p: Progress, s: Step, l: seq<string>)
    ensures Advance(cwd, denied, ShiftLog(p, l), s) == ShiftLog(Advance(cwd, denied, p, s), l)
  {
    assert l + p.log + s.line == l + (p.log + s.line);
  }

  /** What was logged before a run does not change what the run does. */
  lemma {:induction false} RunShift(cwd: string, denied: set<string>, p: Progress, steps: seq<Step>, l: seq<string>)
    ensures Run(cwd, denied, ShiftLog(p, l), steps) == ShiftLog(Run(cwd, denied, p, steps), l)
    decreases |steps|
  {
    if steps != [] {
      AdvanceShift(cwd, denied, p, steps[0], l);
      RunShift(cwd, denied, Advance(cwd, denied, p, steps[0]), steps[1..], l);
    }
  }

  /** Two lists of steps run one after the other: the second runs only if
      the first raised nothing, from where the first left the file system
      and after its log entries. */
  lemma RunThen(cwd: string, denied: set<string>, t: Tree, a: seq<Step>, b: seq<Step>)
    ensures var first := Run(cwd, denied, Progress(t, [], None), a);
      var whole := Run(cwd, denied, Progress(t, [], None), a + b);
      && (first.error.Some? ==> whole == first)
      && (first.error.None? ==> whole == ShiftLog(Run(cwd, denied, Progress(first.tree, [], None), b), first.log))
  {
    RunAppend(cwd, denied, Progress(t, [], None), a, b);
    var first := Run(cwd, denied, Progress(t, [], None), a);
    if first.error.Some? {
      RunKeepsError(cwd, denied, first, b);
    } else {
      assert first == ShiftLog(Progress(first.tree, [], None), first.log);
      RunShift(cwd, denied, Progress(first.tree, [], None), b, first.log);
    }
  }

  /** From any point, the rest of the run ends where the whole run does. */
  lemma AfterRest(cwd: string, denied: set<string>, p: Progress, steps: seq<Step>, i: int)
    ensures 0 <= i <= |steps| ==>
      Run(cwd, denied, After(cwd, denied, p, steps, i), steps[i..]) == Run(cwd, denied, p, steps)
  {
    if i == |steps| {
      assert steps[i..] == [];
    } else if 0 <= i < |steps| {
      assert steps[..0] == [];
      assert steps == steps[..i] + steps[i..];
      RunAppend(cwd, denied, p, steps[..i], steps[i..]);
    }
  }

  /** After an exception every remaining step is skipped. */
  lemma {:induction false} RunKeepsError(cwd: string, denied: set<string>, p: Progress, steps: seq<Step>)
    requires p.error.Some?
    ensures Run(cwd, denied, p, steps) == p
    decreases |steps|
  {
    if steps != [] {
      RunKeepsError(cwd, denied, p, steps[1..]);
    }
  }

  /** A run that ends without an exception started without one. */
  lemma {:induction false} CleanStart(cwd: string, denied: set<string>, p: Progress, steps: seq<Step>)
    requires Run(cwd, denied, p, steps).error.None?
    ensures p.error.None?
  {
    if p.error.Some? {
      RunKeepsError(cwd, denied, p, steps);
    }
  }

  /** A run that ends without an exception met none on the way. */
  lemma CleanBefore(cwd: string, denied: set<string>, p: Progress, steps: seq<Step>, i: int)
    ensures Run(cwd, denied, p, steps).error.None? ==> After(cwd, denied, p, steps, i).error.None?
  {
    if Run(cwd, denied, p, steps).error.None? && 0 <= i < |steps| {
      AfterRest(cwd, denied, p, steps, i);
      CleanStart(cwd, denied, After(cwd, denied, p, steps, i), steps[i..]);
    } else if Run(cwd, denied, p, steps).error.None? && i < 0 {
      CleanStart(cwd, denied, p, steps);
    }
  }

  /** The first exception ends the run: it is the one reported, and the file
      system is left as the calls before it made it. */
  lemma RunStopsAtError(cwd: string, denied: set<string>, p: Progress, steps: seq<Step>, i: int)
    requires 0 <= i < |steps|
    requires After(cwd, denied, p, steps, i).error.None?
    requires After(cwd, denied, p, steps, i + 1).error.Some?
    ensures Run(cwd, denied, p, steps).error == After(cwd, denied, p, steps, i + 1).error
    ensures Run(cwd, denied, p, steps).tree == After(cwd, denied, p, steps, i).tree
    ensures Run(cwd, denied, p, steps).log == After(cwd, denied, p, steps, i).log
  {
    AfterStep(cwd, denied, p, steps, i);
    AfterRest(cwd, denied, p, steps, i + 1);
    RunKeepsError(cwd, denied, After(cwd, denied, p, steps, i + 1), steps[i + 1..]);
  }

  /** A step leaves alone every path it does not touch. */
  lemma AdvanceFrame(cwd: string, denied: set<string>, p: Progress, s: Step, k: string)
    requires !Touches(cwd, s.op, k)
    ensures Same(p.tree, Advance(cwd, denied, p, s).tree, k)
  {
  }

  /** No call of `steps` touches `k`. */
  predicate Untouched(cwd: string, steps: seq<Step>, k: string) {
    forall j | 0 <= j < |steps| :: !Touches(cwd, steps[j].op, k)
  }

  /** A run leaves alone every path none of its steps touches. */
  lemma {:induction false} RunFrame(cwd: string, denied: set<string>, p: Progress, steps: seq<Step>, k: string)
    ensures Untouched(cwd, steps, k) ==> Same(p.tree, Run(cwd, denied, p, steps).tree, k)
    decreases |steps|
  {
    if steps != [] && Untouched(cwd, steps, k) {
      assert !Touches(cwd, steps[0].op, k);
      AdvanceFrame(cwd, denied, p, steps[0], k);
      assert Untouched(cwd, steps[1..], k) by {
        forall j | 0 <= j < |steps[1..]| ensures !Touches(cwd, steps[1..][j].op, k) {
          assert steps[1..][j] == steps[j + 1];
        }
      }
      RunFrame(cwd, denied, Advance(cwd, denied, p, steps[0]), steps[1..], k);
    }
  }

  /** Deleting steps add nothing and change nothing they keep. */
  lemma AdvanceShrinks(cwd: string, denied: set<string>, p: Progress, s: Step)
    requires Removal(s.op)
    ensures forall k | k in Advance(cwd, denied, p, s).tree :: k in p.tree && Advance(cwd, denied, p, s).tree[k] == p.tree[k]
  {
  }

  /** Creating, moving and copying never take away a directory. */
  lemma AdvanceKeepsDirs(cwd: string, denied: set<string>, p: Progress, s: Step, k: string)
    requires !Removal(s.op) && IsDir(p.tree, k)
    ensures IsDir(Advance(cwd, denied, p, s).tree, k)
  {
  }

  /** `os.makedirs` keeps whatever already exists. */
  lemma MakeDirsKeeps(cwd: string, denied: set<string>, p: Progress, s: Step, k: string)
    requires s.op.MakeDirsOp? && k in p.tree
    ensures k in Advance(cwd, denied, p, s).tree && Advance(cwd, denied, p, s).tree[k] == p.tree[k]
  {
  }

  /** `os.makedirs` leaves the folder it names a directory, or raises. */
  lemma MakeDirsMakes(cwd: string, denied: set<string>, p: Progress, s: Step)
    requires s.op.MakeDirsOp? && p.error.None? && Advance(cwd, denied, p, s).error.None?
    ensures IsDir(Advance(cwd, denied, p, s).tree, Abs(cwd, s.op.path))
  {
    var o := MakeDirsOutcome(p.tree, denied, Abs(cwd, s.op.path));
    assert o.Done?;
    assert Abs(cwd, s.op.path) in Ancestors(Abs(cwd, s.op.path));
  }

  /** A deleting step that raises nothing leaves the path it names gone:
      deleted, or absent already so that its test skipped it. A step that
      spares the folder holding `keep` does so only when it does not hold it. */
  lemma RemovedByStep(cwd: string, denied: set<string>, p: Progress, s: Step)
    requires Removal(s.op)
    requires s.op.RemoveTreeSparingOp? ==> !Under(Abs(cwd, s.op.keep), Abs(cwd, s.op.path))
    requires Advance(cwd, denied, p, s).error.None?
    ensures Abs(cwd, s.op.path) !in Advance(cwd, denied, p, s).tree
  {
  }

  /** Every path of `t` inside `d` has `d` as a directory above it. */
  predicate Rooted(t: Tree, d: string) {
    forall k | k in t && Under(k, d) :: IsDir(t, d)
  }

  /** Deleting keeps a directory's contents attached to it: what survives
      inside `d` still has `d` above it. */
  lemma RemovalKeepsRooted(cwd: string, denied: set<string>, p: Progress, s: Step, d: string)
    requires Removal(s.op) && Rooted(p.tree, d)
    ensures Rooted(Advance(cwd, denied, p, s).tree, d)
  {
    var u := Advance(cwd, denied, p, s).tree;
    forall k | k in u && Under(k, d) ensures IsDir(u, d) {
      assert k in p.tree;
      if (s.op.RemoveTreeOp? || s.op.RemoveTreeSparingOp?) && Under(d, Abs(cwd, s.op.path)) {
        UnderTrans(k, d, Abs(cwd, s.op.path));
      }
    }
  }

  /** An `rmtree` step that ends without an exception leaves nothing inside
      the tree it names, provided its contents hang below it. */
  lemma RemovedTree(cwd: string, denied: set<string>, p: Progress, s: Step)
    requires s.op.RemoveTreeOp? && Rooted(p.tree, Abs(cwd, s.op.path))
    requires Advance(cwd, denied, p, s).error.None?
    ensures forall k | Under(k, Abs(cwd, s.op.path)) :: k !in Advance(cwd, denied, p, s).tree
  {
  }

  /* The same facts about the step at index `i` of a run, stated for the
     states before and after it. */

  lemma FrameAt(cwd: string, denied: set<string>, p: Progress, steps: seq<Step>, i: int, k: string)
    ensures 0 <= i < |steps| && !Touches(cwd, steps[i].op, k) ==>
      Same(After(cwd, denied, p, steps, i).tree, After(cwd, denied, p, steps, i + 1).tree, k)
  {
    if 0 <= i < |steps| && !Touches(cwd, steps[i].op, k) {
      AfterStep(cwd, denied, p, steps, i);
      AdvanceFrame(cwd, denied, After(cwd, denied, p, steps, i), steps[i], k);
    }
  }

  lemma MakeDirsAt(cwd: string, denied: set<string>, p: Progress, steps: seq<Step>, i: int, k: string)
    ensures 0 <= i < |steps| && steps[i].op.MakeDirsOp? && k in After(cwd, denied, p, steps, i).tree ==>
      && k in After(cwd, denied, p, steps, i + 1).tree
      && After(cwd, denied, p, steps, i + 1).tree[k] == After(cwd, denied, p, steps, i).tree[k]
  {
    if 0 <= i < |steps| && steps[i].op.MakeDirsOp? && k in After(cwd, denied, p, steps, i).tree {
      AfterStep(cwd, denied, p, steps, i);
      MakeDirsKeeps(cwd, denied, After(cwd, denied, p, steps, i), steps[i], k);
    }
  }

  /** Two `makedirs` calls in a row keep what is at `k`. */
  lemma MakeDirsTwice(cwd: string, denied: set<string>, p: Progress, steps: seq<Step>, i: int, k: string)
    ensures && 0 <= i && i + 2 <= |steps| && steps[i].op.MakeDirsOp? && steps[i + 1].op.MakeDirsOp?
            && k in After(cwd, denied, p, steps, i).tree ==>
      && k in After(cwd, denied, p, steps, i + 2).tree
      && After(cwd, denied, p, steps, i + 2).tree[k] == After(cwd, denied, p, steps, i).tree[k]
  {
    MakeDirsAt(cwd, denied, p, steps, i, k);
    MakeDirsAt(cwd, denied, p, steps, i + 1, k);
  }

  /** Two steps in a row that do not touch `k` leave it as it was. */
  lemma FrameTwice(cwd: string, denied: set<string>, p: Progress, steps: seq<Step>, i: int, k: string)
    ensures && 0 <= i && i + 2 <= |steps| && !Touches(cwd, steps[i].op, k) && !Touches(cwd, steps[i + 1].op, k) ==>
      Same(After(cwd, denied, p, steps, i).tree, After(cwd, denied, p, steps, i + 2).tree, k)
  {
    FrameAt(cwd, denied, p, steps, i, k);
    FrameAt(cwd, denied, p, steps, i + 1, k);
  }

  lemma MadeAt(cwd: string, denied: set<string>, p: Progress, steps: seq<Step>, i: int)
    ensures && 0 <= i < |steps| && steps[i].op.MakeDirsOp?
            && After(cwd, denied, p, steps, i).error.None? && After(cwd, denied, p, steps, i + 1).error.None?
            ==> IsDir(After(cwd, denied, p, steps, i + 1).tree, Abs(cwd, steps[i].op.path))
  {
    if && 0 <= i < |steps| && steps[i].op.MakeDirsOp?
       && After(cwd, denied, p, steps, i).error.None? && After(cwd, denied, p, steps, i + 1).error.None? {
      AfterStep(cwd, denied, p, steps, i);
      MakeDirsMakes(cwd, denied, After(cwd, denied, p, steps, i), steps[i]);
    }
  }

  lemma KeepsDirAt(cwd: string, denied: set<string>, p: Progress, steps: seq<Step>, i: int, k: string)
    ensures 0 <= i < |steps| && !Removal(steps[i].op) && IsDir(After(cwd, denied, p, steps, i).tree, k) ==>
      IsDir(After(cwd, denied, p, steps, i + 1).tree, k)
  {
    if 0 <= i < |steps| && !Removal(steps[i].op) && IsDir(After(cwd, denied, p, steps, i).tree, k) {
      AfterStep(cwd, denied, p, steps, i);
      AdvanceKeepsDirs(cwd, denied, After(cwd, denied, p, steps, i), steps[i], k);
    }
  }

  lemma ShrinksAt(cwd: string, denied: set<string>, p: Progress, steps: seq<Step>, i: int, k: string)
    ensures 0 <= i < |steps| && Removal(steps[i].op) && k in After(cwd, denied, p, steps, i + 1).tree ==>
      && k in After(cwd, denied, p, steps, i).tree
      && After(cwd, denied, p, steps, i + 1).tree[k] == After(cwd, denied, p, steps, i).tree[k]
  {
    if 0 <= i < |steps| && Removal(steps[i].op) {
      AfterStep(cwd, denied, p, steps, i);
      AdvanceShrinks(cwd, denied, After(cwd, denied, p, steps, i), steps[i]);
    }
  }

  lemma RemovedAt(cwd: string, denied: set<string>, p: Progress, steps: seq<Step>, i: int)
    ensures && 0 <= i < |steps| && Removal(steps[i].op)
            && (steps[i].op.RemoveTreeSparingOp? ==>
                  !Under(Abs(cwd, steps[i].op.keep), Abs(cwd, steps[i].op.path)))
            && After(cwd, denied, p, steps, i + 1).error.None?
            ==> Abs(cwd, steps[i].op.path) !in After(cwd, denied, p, steps, i + 1).tree
  {
    if 0 <= i < |steps| {
      AfterStep(cwd, denied, p, steps, i);
      if && Removal(steps[i].op)
         && (steps[i].op.RemoveTreeSparingOp? ==>
               !Under(Abs(cwd, steps[i].op.keep), Abs(cwd, steps[i].op.path)))
         && After(cwd, denied, p, steps, i + 1).error.None? {
        RemovedByStep(cwd, denied, After(cwd, denied, p, steps, i), steps[i]);
      }
    }
  }

  lemma RootedAt(cwd: string, denied: set<string>, p: Progress, steps: seq<Step>, i: int, d: string)
    ensures 0 <= i < |steps| && Removal(steps[i].op) && Rooted(After(cwd, denied, p, steps, i).tree, d) ==>
      Rooted(After(cwd, denied, p, steps, i + 1).tree, d)
  {
    if 0 <= i < |steps| && Removal(steps[i].op) && Rooted(After(cwd, denied, p, steps, i).tree, d) {
      AfterStep(cwd, denied, p, steps, i);
      RemovalKeepsRooted(cwd, denied, After(cwd, denied, p, steps, i), steps[i], d);
    }
  }

  lemma EmptiedAt(cwd: string, denied: set<string>, p: Progress, steps: seq<Step>, i: int, k: string)
    ensures && 0 <= i < |steps| && steps[i].op.RemoveTreeOp?
            && Rooted(After(cwd, denied, p, steps, i).tree, Abs(cwd, steps[i].op.path))
            && After(cwd, denied, p, steps, i + 1).error.None? && Under(k, Abs(cwd, steps[i].op.path))
            ==> k !in After(cwd, denied, p, steps, i + 1).tree
  {
    if && 0 <= i < |steps| && steps[i].op.RemoveTreeOp?
       && Rooted(After(cwd, denied, p, steps, i).tree, Abs(cwd, steps[i].op.path))
       && After(cwd, denied, p, steps, i + 1).error.None? {
      AfterStep(cwd, denied, p, steps, i);
      RemovedTree(cwd, denied, After(cwd, denied, p, steps, i), steps[i]);
    }
  }

  /** The value returned and the entry appended last: the new exe path and
      the summary line after a clean run, the original exe path and the
      exception's text after a failed one; the entries of the steps come
      before it unchanged. */
  lemma FinishReports(p: Progress, plan: Plan, exePath: string)
    ensures var r := Finish(p, plan, exePath);
      && r.tree == p.tree && r.error == p.error
      && |r.log| == |p.log| + 1 && r.log[..|p.log|] == p.log
      && (p.error.None? ==> r.path == plan.newExe && r.log[|p.log|] == OrganizedPrefix + plan.project + "\n")
      && (p.error.Some? ==> r.path == exePath && r.log[|p.log|] == FailurePrefix + ErrorText(p.error.value) + "\n")
  {
  }
}
