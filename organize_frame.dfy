/**
 * What `organize_project` leaves alone: every path outside the project
 * folder and its parent directories, other than the exe it moves, the two
 * build folders and the two `.spec` files, is the same afterwards, whether
 * or not a call raised.
 */
module OrganizeFrame {
  import opened Paths
  import opened Files
  import opened Organizer
  import opened OrganizeEffects

  /** The paths `organize_project` may change, by the plan it makes. */
  predicate Outside(cwd: string, plan: Plan, exePath: string, k: string) {
    var p := Abs(cwd, plan.project);
    && k !in Ancestors(p) && !Under(k, p)
    && k != Abs(cwd, exePath)
    && !Under(k, Abs(cwd, plan.build)) && k != Abs(cwd, plan.spec)
    && !Under(k, Abs(cwd, plan.build2)) && k != Abs(cwd, plan.spec2)
  }

  /** The eight calls one by one. */
  lemma UntouchedEight(cwd: string, steps: seq<Step>, k: string)
    ensures && |steps| == 8
            && !Touches(cwd, steps[0].op, k) && !Touches(cwd, steps[1].op, k)
            && !Touches(cwd, steps[2].op, k) && !Touches(cwd, steps[3].op, k)
            && !Touches(cwd, steps[4].op, k) && !Touches(cwd, steps[5].op, k)
            && !Touches(cwd, steps[6].op, k) && !Touches(cwd, steps[7].op, k)
            ==> Untouched(cwd, steps, k)
  {
    if && |steps| == 8
       && !Touches(cwd, steps[0].op, k) && !Touches(cwd, steps[1].op, k)
       && !Touches(cwd, steps[2].op, k) && !Touches(cwd, steps[3].op, k)
       && !Touches(cwd, steps[4].op, k) && !Touches(cwd, steps[5].op, k)
       && !Touches(cwd, steps[6].op, k) && !Touches(cwd, steps[7].op, k)
    {
      forall j | 0 <= j < 8 ensures !Touches(cwd, steps[j].op, k) {
        if j < 4 {
          assert j == 0 || j == 1 || j == 2 || j == 3;
        } else {
          assert j == 4 || j == 5 || j == 6 || j == 7;
        }
      }
    }
  }

  /** A parent directory of an entry of `p` is a parent directory of `p`
      or lies inside `p`. */
  lemma EntryAncestors(p: string, e: string, q: string)
    requires p != [] && p[|p| - 1] != '/' && (e == [] || e[0] != '/')
    ensures q in Ancestors(Join(p, e)) ==> q in Ancestors(p) || Under(q, p)
  {
    var j := Join(p, e);
    assert j == p + "/" + e;
    if q in Ancestors(j) && |q| < |p| {
      assert q == j[..|q|] == p[..|q|];
      assert p[|q|] == j[|q|];
    } else if q in Ancestors(j) && |q| >= |p| {
      assert q == j[..|q|];
      assert q[..|p|] == p;
    }
  }

  /** The paths the move names lie inside the project folder. */
  lemma MovedInside(cwd: string, outputDir: string, name: string, base: string, sn: string, exePath: string)
    ensures Names(name, base, sn) ==>
      var plan := PlanOf(cwd, outputDir, name, base, sn);
      var p, n := Abs(cwd, plan.project), Abs(cwd, plan.newExe);
      Under(n, p) && Under(Join(n, Basename(Abs(cwd, exePath))), p)
  {
    if Names(name, base, sn) {
      var plan := PlanOf(cwd, outputDir, name, base, sn);
      var p, n := Abs(cwd, plan.project), Abs(cwd, plan.newExe);
      Layout(cwd, outputDir, name, base, sn);
      NewExeApart(cwd, outputDir, name, base, sn);
      UnderJoinAgain(n, Basename(Abs(cwd, exePath)), p);
    }
  }

  /** The paths the copy names lie inside the project folder. */
  lemma CopiedInside(cwd: string, outputDir: string, name: string, base: string, sn: string, scriptPath: string)
    ensures Names(name, base, sn) ==>
      var plan := PlanOf(cwd, outputDir, name, base, sn);
      var p, d := Abs(cwd, plan.project), Abs(cwd, plan.destPy);
      Under(d, p) && Under(Join(d, Basename(Abs(cwd, scriptPath))), p)
  {
    if Names(name, base, sn) {
      var plan := PlanOf(cwd, outputDir, name, base, sn);
      var p, d := Abs(cwd, plan.project), Abs(cwd, plan.destPy);
      Layout(cwd, outputDir, name, base, sn);
      PyFolderInside(cwd, outputDir, name, base, sn);
      UnderTrans(d, Abs(cwd, plan.pyFolder), p);
      UnderJoinAgain(d, Basename(Abs(cwd, scriptPath)), p);
    }
  }

  /** Outside the plan's paths, neither the two `makedirs` calls, nor the
      move, nor the copy touches `k`. */
  lemma OutsidePrepared(cwd: string, outputDir: string, name: string, base: string, sn: string,
                        exePath: string, scriptPath: string, k: string)
    ensures Names(name, base, sn) && Outside(cwd, PlanOf(cwd, outputDir, name, base, sn), exePath, k) ==>
      var plan := PlanOf(cwd, outputDir, name, base, sn);
      && !Touches(cwd, MakeDirsOp(plan.project), k) && !Touches(cwd, MakeDirsOp(plan.pyFolder), k)
      && !Touches(cwd, MoveOp(exePath, plan.newExe), k) && !Touches(cwd, CopyOp(scriptPath, plan.destPy), k)
  {
    OutsideFolders(cwd, outputDir, name, base, sn, exePath, scriptPath, k);
    MovedInside(cwd, outputDir, name, base, sn, exePath);
    CopiedInside(cwd, outputDir, name, base, sn, scriptPath);
  }

  lemma OutsideFolders(cwd: string, outputDir: string, name: string, base: string, sn: string,
                       exePath: string, scriptPath: string, k: string)
    ensures Names(name, base, sn) && Outside(cwd, PlanOf(cwd, outputDir, name, base, sn), exePath, k) ==>
      var plan := PlanOf(cwd, outputDir, name, base, sn);
      !Touches(cwd, MakeDirsOp(plan.project), k) && !Touches(cwd, MakeDirsOp(plan.pyFolder), k)
  {
    var plan := PlanOf(cwd, outputDir, name, base, sn);
    if Names(name, base, sn) && Outside(cwd, plan, exePath, k) {
      var p := Abs(cwd, plan.project);
      Layout(cwd, outputDir, name, base, sn);
      EntryAncestors(p, "py_file", k);
      assert k !in Ancestors(Join(p, "py_file"));
    }
  }

  /** Outside the plan's paths, none of the calls of `organize_project`
      touches `k`. */
  lemma OutsideUntouched(cwd: string, outputDir: string, name: string, base: string, sn: string,
                         exePath: string, scriptPath: string, k: string)
    ensures Names(name, base, sn) && Outside(cwd, PlanOf(cwd, outputDir, name, base, sn), exePath, k) ==>
      Untouched(cwd, Steps(exePath, scriptPath, PlanOf(cwd, outputDir, name, base, sn)), k)
  {
    var plan := PlanOf(cwd, outputDir, name, base, sn);
    OutsidePrepared(cwd, outputDir, name, base, sn, exePath, scriptPath, k);
    StepsAre(exePath, scriptPath, plan);
    UntouchedEight(cwd, Steps(exePath, scriptPath, plan), k);
  }

  /** The same for the corrected cleanup, which touches less. */
  lemma OutsideUntouchedCorrected(cwd: string, outputDir: string, name: string, base: string, sn: string,
                                  exePath: string, scriptPath: string, k: string)
    ensures Names(name, base, sn) && Outside(cwd, PlanOf(cwd, outputDir, name, base, sn), exePath, k) ==>
      Untouched(cwd, CorrectedSteps(exePath, scriptPath, PlanOf(cwd, outputDir, name, base, sn)), k)
  {
    var plan := PlanOf(cwd, outputDir, name, base, sn);
    OutsidePrepared(cwd, outputDir, name, base, sn, exePath, scriptPath, k);
    CorrectedStepsAre(exePath, scriptPath, plan);
    UntouchedEight(cwd, CorrectedSteps(exePath, scriptPath, plan), k);
  }

  /** `organize_project` changes no path outside its plan, whether or not a
      call raised. */
  lemma OrganizeFrame(t: Tree, cwd: string, denied: set<string>,
                      exePath: string, scriptPath: string, outputDir: string, k: string)
    requires ExeNamed(exePath)
    ensures Outside(cwd, MakePlan(cwd, exePath, scriptPath, outputDir), exePath, k) ==>
      Same(t, Organize(t, cwd, denied, exePath, scriptPath, outputDir).tree, k)
  {
    var plan := MakePlan(cwd, exePath, scriptPath, outputDir);
    NamesOf(exePath, scriptPath);
    OutsideUntouched(cwd, outputDir, Basename(exePath), Stem(Basename(exePath)), Basename(scriptPath),
                     exePath, scriptPath, k);
    RunFrame(cwd, denied, Start(t), Steps(exePath, scriptPath, plan), k);
    FinishReports(Run(cwd, denied, Start(t), Steps(exePath, scriptPath, plan)), plan, exePath);
  }

  /** The corrected organiser changes no path outside the same plan. */
  lemma OrganizeCorrectedFrame(t: Tree, cwd: string, denied: set<string>,
                               exePath: string, scriptPath: string, outputDir: string, k: string)
    requires ExeNamed(exePath)
    ensures Outside(cwd, MakePlan(cwd, exePath, scriptPath, outputDir), exePath, k) ==>
      Same(t, OrganizeCorrected(t, cwd, denied, exePath, scriptPath, outputDir).tree, k)
  {
    var plan := MakePlan(cwd, exePath, scriptPath, outputDir);
    NamesOf(exePath, scriptPath);
    OutsideUntouchedCorrected(cwd, outputDir, Basename(exePath), Stem(Basename(exePath)), Basename(scriptPath),
                     exePath, scriptPath, k);
    RunFrame(cwd, denied, Start(t), CorrectedSteps(exePath, scriptPath, plan), k);
    FinishReports(Run(cwd, denied, Start(t), CorrectedSteps(exePath, scriptPath, plan)), plan, exePath);
  }
}
