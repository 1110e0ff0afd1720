/**
 * `MainWindow`, reduced to the state its logic reads and writes: the text
 * of the script, output and name fields, the log view and the file system.
 * Choosing a script fills the empty fields; a finished build is organised
 * into its project folder, with the output field or else the script's
 * folder as the output directory, and summarised in the log.
 */
module Window {
  import opened Wrappers
  import opened Paths
  import opened Text
  import opened Files
  import opened Organizer
  import Command
  import Worker
  import OrganizeEffects

  /** The three text fields `browse_script` reads and writes. */
  datatype Fields = Fields(script: string, output: string, name: string)

  /** `browse_script` after the dialog returned `path` ("" when it was
      cancelled): the script field takes the path, and only the fields left
      empty are filled, the output with the script's folder and the name
      with the script's base name without its extension. */
  function Autofill(f: Fields, path: string): (r: Fields)
    ensures path == [] ==> r == f
    ensures path != [] ==> r.script == path
    ensures f.output != [] ==> r.output == f.output
    ensures f.name != [] ==> r.name == f.name
    ensures path != [] && f.output == [] ==> r.output == Dirname(path)
    ensures path != [] && f.name == [] ==> r.name == Stem(Basename(path))
  {
    if path == [] then f
    else Fields(path,
                if f.output == [] then Dirname(path) else f.output,
                if f.name == [] then Stem(Basename(path)) else f.name)
  }

  /** The output directory `on_build_finished` hands to the organiser: the
      output field, or the script's folder when the field is empty. */
  function OrganizerOutputDir(f: Fields): (d: string)
    ensures f.output != [] ==> d == f.output
    ensures f.output == [] ==> Canonical(d) && d <= f.script
  {
    if f.output != [] then f.output else Dirname(f.script)
  }

  /** Once a script has been chosen, the organiser works in the folder the
      output field shows, even where the field was filled automatically. */
  lemma AutofillSetsOutputDir(f: Fields, path: string)
    requires path != []
    ensures OrganizerOutputDir(Autofill(f, path)) == Autofill(f, path).output
  {
  }

  /** An autofilled name gives the artifact the name an empty field would
      have given it. */
  lemma AutofillKeepsArtifactName(f: Fields, path: string, c: Command.BuildConfig)
    requires path != [] && f.name == [] && c.scriptPath == path
    ensures Worker.ArtifactName(c.(exeName := Autofill(f, path).name)) == Worker.ArtifactName(c.(exeName := ""))
  {
  }

  /** Every exe path the worker reports on success satisfies what the
      organiser theorems ask of their exe path, unless the name field holds
      a separator. */
  lemma ReportedExeNamed(c: Command.BuildConfig)
    requires '/' !in c.exeName
    ensures Basename(Worker.ArtifactPath(c)) == Worker.ArtifactName(c) + ".exe"
    ensures OrganizeEffects.ExeNamed(Worker.ArtifactPath(c))
  {
    var n := Worker.ArtifactName(c);
    if c.exeName == "" {
      NoSeparatorInPrefix(n, Basename(c.scriptPath));
    }
    NoSeparatorInConcat(n, ".exe");
    BasenameJoin(Worker.ArtifactDir(c), n + ".exe");
    assert (n + ".exe")[|n + ".exe"| - 4..] == ".exe";
  }

  /** The log lines `on_build_finished` appends after a successful build. */
  function SucceededLines(exePath: string): seq<string> {
    ["\n" + Repeat('=', 50), "✅ BUILD ERFOLGREICH!", "📁 EXE Datei: " + exePath, Repeat('=', 50) + "\n"]
  }

  /** The status label after a successful build names the exe file. */
  function SucceededStatus(exePath: string): string {
    "✅ Erfolgreich: " + Basename(exePath)
  }

  /** The status label after a failed build shows the worker's message. */
  function FailedStatus(message: string): string {
    "❌ Fehler: " + message
  }

  /** The log lines `on_build_finished` appends after a failed build. */
  function FailedLines(message: string): seq<string> {
    ["\n" + Repeat('=', 50), "❌ BUILD FEHLGESCHLAGEN: " + message, Repeat('=', 50) + "\n"]
  }

  class MainWindow {
    var scriptText: string
    var outputText: string
    var nameText: string
    /** The paragraphs appended to the log view, in order. */
    var log: seq<string>
    /** The text of the status label. */
    var status: string
    const fs: FileSystem

    constructor (fs: FileSystem)
      ensures scriptText == [] && outputText == [] && nameText == [] && log == [] && status == []
      ensures this.fs == fs
    {
      scriptText, outputText, nameText := [], [], [];
      log, status := [], [];
      this.fs := fs;
    }

    function FieldsNow(): Fields
      reads this
    {
      Fields(scriptText, outputText, nameText)
    }

    /** `browse_script`, the dialog's answer given as `path`. */
    method BrowseScript(path: string)
      modifies this
      ensures FieldsNow() == Autofill(old(FieldsNow()), path)
      ensures log == old(log)
    {
      if path != [] {
        scriptText := path;
        if outputText == [] {
          outputText := Dirname(path);
        }
        if nameText == [] {
          var baseName := Stem(Basename(path));
          nameText := baseName;
        }
      }
    }

    /** `on_build_finished` without the shortcut and the folder opening:
        after a successful build the exe reported in `message` is organised
        when `organize` is set, in the output folder or else the script's
        folder, and the build is summarised under the exe path organising
        returned; after a failed build the message is shown. */
    method OnBuildFinished(success: bool, message: string, organize: bool)
      modifies this, fs
      ensures success && organize ==>
        var o := Organize(old(fs.tree), fs.cwd, fs.denied, message, old(scriptText), OrganizerOutputDir(old(FieldsNow())));
        && fs.tree == o.tree && log == old(log) + o.log + SucceededLines(o.path) && status == SucceededStatus(o.path)
      ensures success && !organize ==>
        && fs.tree == old(fs.tree) && log == old(log) + SucceededLines(message) && status == SucceededStatus(message)
      ensures !success ==>
        && fs.tree == old(fs.tree) && log == old(log) + FailedLines(message) && status == FailedStatus(message)
      ensures FieldsNow() == old(FieldsNow())
    {
      if success {
        var exePath := message;
        if organize {
          var outputDir := if outputText != [] then outputText else Dirname(scriptText);
          exePath := OrganizeProject(exePath, scriptText, outputDir);
        }
        Announce(SucceededStatus(exePath), SucceededLines(exePath));
      } else {
        Announce(FailedStatus(message), FailedLines(message));
      }
    }

    /** The status label and the log lines of a finished build. */
    method Announce(text: string, lines: seq<string>)
      modifies this
      ensures status == text && log == old(log) + lines
      ensures FieldsNow() == old(FieldsNow()) && fs.tree == old(fs.tree)
    {
      status := text;
      log := log + lines;
    }

    /** `organize_project`: the calls are made one after the other, each
        behind its test, and the first exception abandons the rest. The log
        and the file system end as `Organize` says. */
    method OrganizeProject(exePath: string, scriptPath: string, outputDir: string) returns (path: string)
      modifies this, fs
      ensures var o := Organize(old(fs.tree), fs.cwd, fs.denied, exePath, scriptPath, outputDir);
        && fs.tree == o.tree && log == old(log) + o.log && path == o.path
      ensures FieldsNow() == old(FieldsNow())
    {
      ghost var t, log0 := fs.tree, log;
      var plan := MakePlan(fs.cwd, exePath, scriptPath, outputDir);
      var e := Relocate(exePath, scriptPath, plan);
      ghost var log1 := log;
      path := Conclude(exePath, plan, e);
      Composed(t, fs.cwd, fs.denied, exePath, scriptPath, outputDir, plan, e, fs.tree, log0, log1, log, path);
    }

    /** The last entry of `organize_project` and the path it returns: the
        project folder and the new exe path when no call raised, else the
        exception's text and the original exe path. */
    method Conclude(exePath: string, plan: Plan, e: Option<Error>) returns (path: string)
      modifies this
      ensures var f := Finish(Progress(fs.tree, [], e), plan, exePath);
        && log == old(log) + f.log && path == f.path && fs.tree == old(fs.tree)
      ensures FieldsNow() == old(FieldsNow())
    {
      if e.Some? {
        log := log + [Organizer.FailurePrefix + ErrorText(e.value) + "\n"];
        path := exePath;
      } else {
        log := log + [OrganizedPrefix + plan.project + "\n"];
        path := plan.newExe;
      }
    }

    /** The eight calls of `organize_project` on the names in `plan`, each
        behind its test, up to the first exception, which is returned. */
    method Relocate(exePath: string, scriptPath: string, plan: Plan) returns (e: Option<Error>)
      modifies this, fs
      ensures var r := Run(fs.cwd, fs.denied, Progress(old(fs.tree), [], None), Steps(exePath, scriptPath, plan));
        && fs.tree == r.tree && log == old(log) + r.log && e == r.error
      ensures FieldsNow() == old(FieldsNow())
    {
      ghost var t, log0 := fs.tree, log;
      e := Prepare(exePath, scriptPath, plan);
      ghost var u, log1 := fs.tree, log;
      if e.None? {
        e := CleanUp(plan);
      }
      Joined(fs.cwd, fs.denied, t, PrepareSteps(exePath, scriptPath, plan), CleanupSteps(plan),
             u, e, fs.tree, log0, log1, log);
    }

    /** The two folders, the move and the copy. */
    method Prepare(exePath: string, scriptPath: string, plan: Plan) returns (e: Option<Error>)
      modifies this, fs
      ensures var r := Run(fs.cwd, fs.denied, Progress(old(fs.tree), [], None), PrepareSteps(exePath, scriptPath, plan));
        && fs.tree == r.tree && log == old(log) + r.log && e == r.error
      ensures FieldsNow() == old(FieldsNow())
    {
      ghost var cwd, denied, log0 := fs.cwd, fs.denied, log;
      ghost var rest := PrepareSteps(exePath, scriptPath, plan);
      ghost var whole := Run(cwd, denied, Progress(fs.tree, [], None), rest);
      ghost var q := Progress(fs.tree, log, None);
      RunShift(cwd, denied, Progress(fs.tree, [], None), rest, log);
      assert ShiftLog(Progress(fs.tree, [], None), log) == q;

      e := MakeFolder(plan.project);
      Stepped(cwd, denied, whole, log0, q, rest, Progress(fs.tree, log, e));
      if e.Some? { return; }
      q, rest := Progress(fs.tree, log, None), rest[1..];
      e := MakeFolder(plan.pyFolder);
      Stepped(cwd, denied, whole, log0, q, rest, Progress(fs.tree, log, e));
      if e.Some? { return; }
      q, rest := Progress(fs.tree, log, None), rest[1..];
      e := MoveExe(exePath, plan.newExe);
      Stepped(cwd, denied, whole, log0, q, rest, Progress(fs.tree, log, e));
      if e.Some? { return; }
      q, rest := Progress(fs.tree, log, None), rest[1..];
      e := CopyScript(scriptPath, plan.destPy);
      Stepped(cwd, denied, whole, log0, q, rest, Progress(fs.tree, log, e));
    }

    /** The build folders and `.spec` files of the working and the output
        directory. */
    method CleanUp(plan: Plan) returns (e: Option<Error>)
      modifies this, fs
      ensures var r := Run(fs.cwd, fs.denied, Progress(old(fs.tree), [], None), CleanupSteps(plan));
        && fs.tree == r.tree && log == old(log) + r.log && e == r.error
      ensures FieldsNow() == old(FieldsNow())
    {
      ghost var cwd, denied, log0 := fs.cwd, fs.denied, log;
      ghost var rest := CleanupSteps(plan);
      ghost var whole := Run(cwd, denied, Progress(fs.tree, [], None), rest);
      ghost var q := Progress(fs.tree, log, None);
      RunShift(cwd, denied, Progress(fs.tree, [], None), rest, log);
      assert ShiftLog(Progress(fs.tree, [], None), log) == q;

      e := RemoveFolder(plan.build, [BuildRemovedLine]);
      Stepped(cwd, denied, whole, log0, q, rest, Progress(fs.tree, log, e));
      if e.Some? { return; }
      q, rest := Progress(fs.tree, log, None), rest[1..];
      e := RemoveFile(plan.spec, [SpecRemovedLine]);
      Stepped(cwd, denied, whole, log0, q, rest, Progress(fs.tree, log, e));
      if e.Some? { return; }
      q, rest := Progress(fs.tree, log, None), rest[1..];
      e := RemoveFolder(plan.build2, []);
      Stepped(cwd, denied, whole, log0, q, rest, Progress(fs.tree, log, e));
      if e.Some? { return; }
      q, rest := Progress(fs.tree, log, None), rest[1..];
      e := RemoveFile(plan.spec2, []);
      Stepped(cwd, denied, whole, log0, q, rest, Progress(fs.tree, log, e));
    }

    /** `os.makedirs(folder, exist_ok=True)`. */
    method MakeFolder(folder: string) returns (error: Option<Error>)
      modifies this, fs
      ensures Progress(fs.tree, log, error)
           == Advance(fs.cwd, fs.denied, Progress(old(fs.tree), old(log), None), Step(MakeDirsOp(folder), []))
      ensures FieldsNow() == old(FieldsNow())
    {
      error := fs.MakeDirs(folder);
    }

    /** The exe is moved into the project folder if it exists and is not
        there already, and the move is logged. */
    method MoveExe(exePath: string, newExePath: string) returns (error: Option<Error>)
      modifies this, fs
      ensures Progress(fs.tree, log, error)
           == Advance(fs.cwd, fs.denied, Progress(old(fs.tree), old(log), None),
                      Step(MoveOp(exePath, newExePath), [MovedPrefix + newExePath + "\n"]))
      ensures FieldsNow() == old(FieldsNow())
    {
      error := None;
      var present := fs.Exists(exePath);
      if present && Abs(fs.cwd, exePath) != Abs(fs.cwd, newExePath) {
        error := fs.Move(exePath, newExePath);
        if error.None? {
          log := log + [MovedPrefix + newExePath + "\n"];
        }
      }
    }

    /** The script is copied into the `py_file` folder unless it is that
        very file, and the copy is logged. */
    method CopyScript(scriptPath: string, destPy: string) returns (error: Option<Error>)
      modifies this, fs
      ensures Progress(fs.tree, log, error)
           == Advance(fs.cwd, fs.denied, Progress(old(fs.tree), old(log), None),
                      Step(CopyOp(scriptPath, destPy), [CopiedPrefix + destPy + "\n"]))
      ensures FieldsNow() == old(FieldsNow())
    {
      error := None;
      if Abs(fs.cwd, scriptPath) != Abs(fs.cwd, destPy) {
        error := fs.Copy2(scriptPath, destPy);
        if error.None? {
          log := log + [CopiedPrefix + destPy + "\n"];
        }
      }
    }

    /** A build folder is deleted with everything in it if it exists, and
        `line` is logged. */
    method RemoveFolder(folder: string, line: seq<string>) returns (error: Option<Error>)
      modifies this, fs
      ensures Progress(fs.tree, log, error)
           == Advance(fs.cwd, fs.denied, Progress(old(fs.tree), old(log), None), Step(RemoveTreeOp(folder), line))
      ensures FieldsNow() == old(FieldsNow())
    {
      error := None;
      var present := fs.Exists(folder);
      if present {
        error := fs.RemoveTree(folder);
        if error.None? {
          log := log + line;
        }
      }
    }

    /** A `.spec` file is deleted if it exists, and `line` is logged. */
    method RemoveFile(file: string, line: seq<string>) returns (error: Option<Error>)
      modifies this, fs
      ensures Progress(fs.tree, log, error)
           == Advance(fs.cwd, fs.denied, Progress(old(fs.tree), old(log), None), Step(RemoveOp(file), line))
      ensures FieldsNow() == old(FieldsNow())
    {
      error := None;
      var present := fs.Exists(file);
      if present {
        error := fs.Remove(file);
        if error.None? {
          log := log + line;
        }
      }
    }
  }

  /** One step of `organize_project` taken: what is left of the run still
      ends where the whole run does, and at once when the step raised. */
  lemma Stepped(cwd: string, denied: set<string>, whole: Progress, l: seq<string>,
                q: Progress, rest: seq<Step>, r: Progress)
    requires rest != [] && ShiftLog(whole, l) == Run(cwd, denied, q, rest)
    requires r == Advance(cwd, denied, q, rest[0])
    ensures ShiftLog(whole, l) == Run(cwd, denied, r, rest[1..])
    ensures r.error.Some? ==> ShiftLog(whole, l) == r
  {
    if r.error.Some? {
      RunKeepsError(cwd, denied, r, rest[1..]);
    }
  }

  /** `Organize` is the run of the steps on the plan `MakePlan` draws up. */
  lemma OrganizeUnfolds(t: Tree, cwd: string, denied: set<string>,
                        exePath: string, scriptPath: string, outputDir: string, plan: Plan)
    requires plan == MakePlan(cwd, exePath, scriptPath, outputDir)
    ensures Organize(t, cwd, denied, exePath, scriptPath, outputDir)
         == Finish(Run(cwd, denied, Progress(t, [], None), Steps(exePath, scriptPath, plan)), plan, exePath)
  {
  }

  lemma AppendAssoc(a: seq<string>, b: seq<string>, c: seq<string>)
    ensures a + b + c == a + (b + c)
  {
  }

  /** What `Finish` appends does not depend on what was logged before. */
  lemma FinishShift(r: Progress, plan: Plan, exePath: string)
    ensures var f := Finish(Progress(r.tree, [], r.error), plan, exePath);
      && Finish(r, plan, exePath).log == r.log + f.log
      && Finish(r, plan, exePath).path == f.path && Finish(r, plan, exePath).tree == r.tree
  {
  }

  /** The run of the steps followed by `Finish` is `Organize`. */
  lemma Composed(t: Tree, cwd: string, denied: set<string>,
                 exePath: string, scriptPath: string, outputDir: string, plan: Plan, e: Option<Error>,
                 u: Tree, log0: seq<string>, log1: seq<string>, log2: seq<string>, path: string)
    requires plan == MakePlan(cwd, exePath, scriptPath, outputDir)
    requires var r := Run(cwd, denied, Progress(t, [], None), Steps(exePath, scriptPath, plan));
      u == r.tree && log1 == log0 + r.log && e == r.error
    requires var f := Finish(Progress(u, [], e), plan, exePath);
      log2 == log1 + f.log && path == f.path
    ensures var o := Organize(t, cwd, denied, exePath, scriptPath, outputDir);
      u == o.tree && log2 == log0 + o.log && path == o.path
  {
    var r := Run(cwd, denied, Progress(t, [], None), Steps(exePath, scriptPath, plan));
    OrganizeUnfolds(t, cwd, denied, exePath, scriptPath, outputDir, plan);
    FinishShift(r, plan, exePath);
    AppendAssoc(log0, r.log, log2[|log1|..]);
  }

  /** Two runs one after the other, the second only when the first raised
      nothing, are the run of the joined steps. */
  lemma Joined(cwd: string, denied: set<string>, t: Tree, a: seq<Step>, b: seq<Step>,
               u: Tree, e: Option<Error>, w: Tree, log0: seq<string>, log1: seq<string>, log2: seq<string>)
    requires var first := Run(cwd, denied, Progress(t, [], None), a);
      u == first.tree && log1 == log0 + first.log
    requires var first := Run(cwd, denied, Progress(t, [], None), a);
      first.error.Some? ==> e == first.error && w == u && log2 == log1
    requires var first := Run(cwd, denied, Progress(t, [], None), a);
      var second := Run(cwd, denied, Progress(u, [], None), b);
      first.error.None? ==> e == second.error && w == second.tree && log2 == log1 + second.log
    ensures var r := Run(cwd, denied, Progress(t, [], None), a + b);
      w == r.tree && log2 == log0 + r.log && e == r.error
  {
    RunThen(cwd, denied, t, a, b);
    var first := Run(cwd, denied, Progress(t, [], None), a);
    if first.error.None? {
      var second := Run(cwd, denied, Progress(u, [], None), b);
      AppendAssoc(log0, first.log, second.log);
    }
  }

  /** The status label names the exe file the worker reported, whether or
      not organising moved it into the project folder. */
  lemma StatusNamesExe(t: Tree, cwd: string, denied: set<string>,
                       exePath: string, scriptPath: string, outputDir: string)
    requires Basename(exePath) != []
    ensures SucceededStatus(Organize(t, cwd, denied, exePath, scriptPath, outputDir).path) == SucceededStatus(exePath)
  {
    var plan := MakePlan(cwd, exePath, scriptPath, outputDir);
    OrganizeUnfolds(t, cwd, denied, exePath, scriptPath, outputDir, plan);
    FinishReports(Run(cwd, denied, Progress(t, [], None), Steps(exePath, scriptPath, plan)), plan, exePath);
    BasenameJoin(plan.project, plan.exeName);
  }
}
