# PyToExe in Dafny

PyToExe is a small Qt desktop tool. It turns a Python script into a Windows
executable by running PyInstaller in a worker thread. This project models
the logic of `py2exe_converter.py` behind the widgets and proves
properties of it:

- **Command line** (`Command`). `BuildWorker.run` assembles the PyInstaller
  argument list from the build options. The model pairs that list with a
  parser that reads it back, and proves the round trip. `run` reads a
  `noconsole` option, so the model keeps it. The options `start_build`
  collects have no `noconsole` key, so in the application `--noconsole`
  never appears.
- **Worker** (`Worker`). The `BuildWorker` thread emits a three-line
  header. It then relays the child's output line by line until a pending
  `cancel()` is seen, and ends with exactly one `finished(success, message)`
  signal. Two things are inputs. The first is the child process: its
  lines, how it ends on its own, and how it ends once `cancel()` has
  terminated it. The second is the timing of `cancel()`: an oracle saying,
  for each check of the flag, whether `cancel()` came before it, and
  whether it came after the last line was read.
- **Icon path** (`Icon`). `convert_to_ico` keeps a `.ico` path and
  otherwise names `<dir>/<stem>_converted.ico`.
- **Checkbox labels** (`Labels`). `update_checkbox_style` strips the old
  markers and prefixes "✓  " or "✗  ".
- **Main window** (`Window`).
  - `browse_script` fills the empty output and name fields.
  - `on_build_finished` organises the build and writes the status and
    log lines.
  - `organize_project` makes the project folder and its `py_file`
    sub-folder, moves the exe in and copies the script. It then deletes
    the `build` folders and `.spec` files in the working and output
    directories.
- **File system** (`Files`, `Organizer`). The file system is a map from
  absolute paths to files and directories, with a set of paths that deny
  access. `os.makedirs`, `shutil.move`, `shutil.copy2`, `shutil.rmtree`
  and `os.remove` are specified by outcome functions, and every failure is
  an exception. `organize_project` is the run of eight guarded steps that
  stops at the first exception (`Organizer.Run`). The `MainWindow` method
  that performs the same calls on a `FileSystem` object is proved equal to
  that run.

`Paths` models the `os.path` functions used here on `/`-separated paths.
`Text` models `str.strip`, `str.replace(x, "")`, `" ".join` and decimal
integers.

## Model

All source cells refer to `PyToExe/py2exe_converter.py`.

| member | source | states |
|---|---|---|
| Command.CommandLine | PyToExe/py2exe_converter.py:193-220 | The list starts with the interpreter, `-m`, `PyInstaller` and ends with the script path; it holds between 4 and 14 entries |
| Command.ParseOptionArgs | PyToExe/py2exe_converter.py:196-217 | The options part of the list reads back as exactly the three flags, the name, the output directory, the icon and `--noconsole`, in that order |
| Command.CommandLineRoundTrip | PyToExe/py2exe_converter.py:193-220 | Parsing the assembled list gives back the build's intent: a flag is present iff its option is set, and `--name`/`--distpath`/`--icon` are present iff their value is non-empty, each followed by that value |
| Command.IconArg | PyToExe/py2exe_converter.py:212-213 | The icon argument is empty exactly when no icon, or an empty one, was given; otherwise it is the given icon |
| Command.CommandLineExample | PyToExe/py2exe_converter.py:193-220 | With every flag set, a name, an output directory and no icon, the list is the ten expected entries plus the script |
| Worker.BuildWorker.BuildCommand | PyToExe/py2exe_converter.py:193-220 | The list grown by `append`/`extend` is the assembled command line |
| Worker.BuildWorker.AppendFlag | PyToExe/py2exe_converter.py:196-197 | Appends the flag exactly when it is set |
| Worker.BuildWorker.AppendValued | PyToExe/py2exe_converter.py:205-206 | Appends key and value exactly when the value is non-empty |
| Worker.BuildWorker.constructor | PyToExe/py2exe_converter.py:181-188 | A new worker has no process, no cancel and no signals |
| Worker.BuildWorker.Cancel | PyToExe/py2exe_converter.py:258-261 | Raises the flag; terminates the child iff one was started; emits nothing |
| Worker.Header | PyToExe/py2exe_converter.py:222-224 | A run begins with exactly three output lines |
| Worker.Emit | PyToExe/py2exe_converter.py:237-242 | Each line read becomes one output signal with the same text, in order |
| Worker.Final | PyToExe/py2exe_converter.py:244-253 | The closing signal is `finished`; it reports success iff the return code is 0, and then carries the computed exe path |
| Worker.StreamEnd | PyToExe/py2exe_converter.py:237-261 | The stream ends as the child's own ending, unless `cancel()` arrives after the last line was read, when it ends as the killed child's ending |
| Worker.RunEvents | PyToExe/py2exe_converter.py:190-256 | A run emits the three header lines first, then only output signals, and at least one signal more, with a single `finished` signal last |
| Worker.BuildWorker.Run | PyToExe/py2exe_converter.py:190-261 | The emitted signals are the old ones followed by `RunEvents`; a process is started iff `Popen` succeeds; a cancel that arrives while the child runs, seen or not, leaves the flag raised and the child terminated |
| Worker.BuildWorker.RelayLines | PyToExe/py2exe_converter.py:237-261 | The loop forwards lines until a check sees the flag and then emits the outcome, as `Relay` states; a cancel after the last line terminates the child and so decides how the stream ends |
| Worker.CancelPoint | PyToExe/py2exe_converter.py:237-241 | The index where the loop stops is the first check that sees the flag, or the number of lines when none does |
| Worker.CancelPointIsObservation | PyToExe/py2exe_converter.py:237-241 | The loop stops before the end iff some check after a read sees the flag |
| Worker.RelayShape | PyToExe/py2exe_converter.py:237-253 | From any line on, the relay forwards the lines before the cancel point unchanged, then emits `Abgebrochen` or the stream's outcome |
| Worker.RunEventsShape | PyToExe/py2exe_converter.py:222-256 | A run emits the three header lines, then only output lines (the child's, in order, up to the cancel point), and ends with exactly one `finished` signal, the one `ExpectedOutcome` gives by cases |
| Worker.NoCancelForwardsAll | PyToExe/py2exe_converter.py:222-253 | Without a cancel, every line of the child is forwarded in order, followed by the outcome of the child's own ending |
| Worker.SuccessExactly | PyToExe/py2exe_converter.py:244-253 | The build succeeds iff the child started, no cancel was seen and the stream's return code is 0 (after a late cancel, the killed child's code); the success message is then the computed exe path |
| Worker.ExitMessageCarriesCode | PyToExe/py2exe_converter.py:252-253 | A failure message has the fixed prefix and closing parenthesis, and the return code reads back from it |
| Worker.LateCancelOutcome | PyToExe/py2exe_converter.py:237-261 | A cancel that no check sees is never reported as `Abgebrochen`: the outcome is that of the killed child when it arrives after the last line was read, and of the child's own ending when it does not arrive at all |
| Worker.LateCancelReportedAsFailure | PyToExe/py2exe_converter.py:237-261 | A cancel after the last line, whose terminated child exits with a non-zero code, is reported as `Build fehlgeschlagen (Code: …)`, a message other than `Abgebrochen` |
| Worker.CorrectedReportsCancel | PyToExe/py2exe_converter.py:237-261 | With the flag checked once more after the loop, every requested cancel is reported as `Abgebrochen`, a build succeeds iff no cancel was requested and the child exited with 0, and without a cancel the outcome is as before |
| Worker.ArtifactPath | PyToExe/py2exe_converter.py:247-250 | The reported path ends with the exe name (or the script's stem) plus `.exe` |
| Worker.ArtifactPathParts | PyToExe/py2exe_converter.py:247-250 | The reported path splits into the output directory (or `dist`) and `<name>.exe`, whose stem is the name again |
| Text.IntToString | PyToExe/py2exe_converter.py:253 | The return code is written as a non-empty string with a leading `-` exactly when it is negative |
| Text.Repeat | PyToExe/py2exe_converter.py:224 | `"-" * 50` is fifty dashes |
| Text.Strip | PyToExe/py2exe_converter.py:466 | The stripped label has no surrounding whitespace, is no longer than the text, uses only its characters, and is empty iff the text is all whitespace |
| Text.RemoveAll | PyToExe/py2exe_converter.py:466 | `replace(x, "")` is no longer than the text, uses only its characters, and leaves a text without `x` unchanged |
| Paths.Basename | PyToExe/py2exe_converter.py:480 | `basename` is the part of the path after its last `/`, which holds no `/` |
| Paths.Dirname | PyToExe/py2exe_converter.py:580 | `dirname` is a prefix of the path that is empty, the root, or free of a trailing `/` |
| Paths.Join | PyToExe/py2exe_converter.py:485 | `join` with an absolute second part gives that part |
| Paths.JoinParts | PyToExe/py2exe_converter.py:485 | `join` with a relative second part begins with the first part and ends with the second |
| Paths.Stem | PyToExe/py2exe_converter.py:481 | `splitext(...)[0]` is a prefix of the name; it is the whole name iff the name has no dot after a non-dot, and otherwise the name continues with the last dot and a dot-free extension |
| Paths.Lower | PyToExe/py2exe_converter.py:597 | `lower` keeps the length and lowers each character |
| Text.ParseIntToString | PyToExe/py2exe_converter.py:253 | Every integer, negative ones too, is written in decimal so that it reads back |
| Icon.SaveSizes | PyToExe/py2exe_converter.py:612 | Six square sizes from 256 down to 16, strictly decreasing |
| Icon.ConvertToIco | PyToExe/py2exe_converter.py:597-642 | Returns a path iff the input is a `.ico` path or conversion succeeds; the path ends in `.ico`; a new path lies in the image's folder and is named `<stem>_converted.ico` |
| Icon.ConvertedPath | PyToExe/py2exe_converter.py:615-618 | The converted path ends in `.ico` and splits into the image's directory and `<stem>_converted.ico` |
| Icon.ConvertIdempotent | PyToExe/py2exe_converter.py:597-618 | Converting a returned icon path again returns it unchanged |
| Icon.IcoUnchanged | PyToExe/py2exe_converter.py:597-598 | A path ending in `.ico` (any case) is returned unchanged |
| Icon.ConvertedIsNew | PyToExe/py2exe_converter.py:615-618 | A raster image's icon path differs from the image's path |
| Labels.BaseLabel | PyToExe/py2exe_converter.py:464-466 | The label without markers has no surrounding whitespace, is no longer than the text and uses only its characters |
| Labels.StyledLabel | PyToExe/py2exe_converter.py:466-472 | The new text starts with "✓  " iff the box is checked, and with "✗  " iff not, followed by the base label |
| Labels.StyleSheet | PyToExe/py2exe_converter.py:470-473 | The green bold style iff the box is checked |
| Labels.Checkbox.UpdateStyle | PyToExe/py2exe_converter.py:462-473 | The box's text and style sheet become the styled label and style sheet for its state; the state is unchanged |
| Labels.BasePreserved | PyToExe/py2exe_converter.py:466 | Restyling keeps the label's base text |
| Labels.RestyleToggles | PyToExe/py2exe_converter.py:462-473 | Restyling a styled label for a new state equals styling the original text for that state |
| Labels.RestyleIdempotent | PyToExe/py2exe_converter.py:462-473 | Restyling with an unchanged state changes nothing |
| Labels.RestyleNotIdempotent | PyToExe/py2exe_converter.py:466 | For "✓✓  x" a second restyle changes the text again, because `replace` makes a single pass |
| Files.MakeDirsOutcome | PyToExe/py2exe_converter.py:486 | `makedirs(exist_ok=True)` fails iff the path is empty, a prefix is a file, or a missing prefix is denied; on success every prefix is a directory and nothing else changes |
| Files.MoveOutcome | PyToExe/py2exe_converter.py:495 | `move` succeeds iff the source is a file, the target is not an existing entry of a directory `d`, and neither path is denied; a file at `d` is replaced. The content arrives at the target, the source is gone, nothing else changes |
| Files.CopyOutcome | PyToExe/py2exe_converter.py:501 | `copy2` succeeds iff the source is a file distinct from a writable non-directory target; the target gets the content, nothing else changes |
| Files.RemoveTreeOutcome | PyToExe/py2exe_converter.py:507 | `rmtree` succeeds iff the path is a directory with nothing denied in it; then everything under it is gone and nothing else changes |
| Files.RemoveOutcome | PyToExe/py2exe_converter.py:513 | `remove` succeeds iff the path is a file that is not denied; then only it is gone |
| Files.MakeDirsExistOk | PyToExe/py2exe_converter.py:486 | Making folders that already exist changes nothing, so a project folder from an earlier build is no obstacle |
| Files.FileSystem.Exists | PyToExe/py2exe_converter.py:494 | `os.path.exists` answers whether the resolved path is present |
| Files.FileSystem.MakeDirs | PyToExe/py2exe_converter.py:486 | The tree and the raised error are those of `MakeDirsOutcome` |
| Files.FileSystem.Move | PyToExe/py2exe_converter.py:495 | The tree and the raised error are those of `MoveOutcome` |
| Files.FileSystem.Copy2 | PyToExe/py2exe_converter.py:501 | The tree and the raised error are those of `CopyOutcome` |
| Files.FileSystem.RemoveTree | PyToExe/py2exe_converter.py:507 | The tree and the raised error are those of `RemoveTreeOutcome` |
| Files.FileSystem.Remove | PyToExe/py2exe_converter.py:513 | The tree and the raised error are those of `RemoveOutcome` |
| Organizer.Organize | PyToExe/py2exe_converter.py:475-532 | The log gains a closing line; when nothing raised, the returned path is the new exe path and the line names the project folder, otherwise the returned path is the original exe path and the line gives the error |
| Organizer.RunStopsAtError | PyToExe/py2exe_converter.py:477-532 | The first call that raises ends the run: its error is reported, with the tree and log as they were before that call |
| Organizer.RunFrame | PyToExe/py2exe_converter.py:485-523 | A path that no step touches keeps its entry through the whole run |
| Organizer.FinishReports | PyToExe/py2exe_converter.py:525-532 | Exactly one last log line: the project folder and the new exe path when nothing raised, otherwise the error text and the original exe path |
| Window.MainWindow.OrganizeProject | PyToExe/py2exe_converter.py:475-532 | The file system, the log and the returned path end as `Organize` states |
| Window.MainWindow.Relocate | PyToExe/py2exe_converter.py:485-523 | The eight guarded calls leave the tree, log and error of the run of the steps |
| Window.MainWindow.Prepare | PyToExe/py2exe_converter.py:485-502 | The two folders, the move and the copy leave the tree, log and error of their run |
| Window.MainWindow.CleanUp | PyToExe/py2exe_converter.py:504-523 | The two build folders and two `.spec` files leave the tree, log and error of their run |
| Window.MainWindow.Conclude | PyToExe/py2exe_converter.py:525-532 | The closing log line and returned path are those of `Finish`; the tree is unchanged |
| Window.MainWindow.MakeFolder | PyToExe/py2exe_converter.py:486 | One `makedirs` step, as `Advance` states |
| Window.MainWindow.MoveExe | PyToExe/py2exe_converter.py:493-496 | The guarded move and its log line, as `Advance` states |
| Window.MainWindow.CopyScript | PyToExe/py2exe_converter.py:499-502 | The guarded copy and its log line, as `Advance` states |
| Window.MainWindow.RemoveFolder | PyToExe/py2exe_converter.py:505-508 | The guarded `rmtree` and its log line, as `Advance` states |
| Window.MainWindow.RemoveFile | PyToExe/py2exe_converter.py:511-514 | The guarded `remove` and its log line, as `Advance` states |
| OrganizeEffects.OrganizeMovesExe | PyToExe/py2exe_converter.py:493-496 | When nothing raises and the exe lies outside the build folders, the returned path is the new exe path, the exe's content is there, and the old path is gone unless it is the same |
| OrganizeEffects.OrganizeCopiesScript | PyToExe/py2exe_converter.py:499-502 | When nothing raises, the `py_file` folder holds the script's content under its name, and the script itself stays in place unless a build folder holds it |
| OrganizeEffects.OrganizeCleansUp | PyToExe/py2exe_converter.py:505-523 | When nothing raises, both build folders and both `.spec` files are gone |
| OrganizeFrame.OrganizeFrame | PyToExe/py2exe_converter.py:485-523 | No path outside the project folder and its parents, the exe, the build folders and the `.spec` files changes |
| OrganizeEffects.BuildNamedExeLost | PyToExe/py2exe_converter.py:485-519 | An exe named `build.exe` gets the output directory's `build` folder as its project folder; when nothing raises, the returned exe path and everything in the project folder are gone |
| OrganizeEffects.OrganizeCorrectedKeepsExe | PyToExe/py2exe_converter.py:493-528 | With a cleanup that spares a build folder holding the project, the exe arrives and stays for every exe name, `build.exe` included |
| OrganizeEffects.OrganizeCorrectedCopiesScript | PyToExe/py2exe_converter.py:499-502 | The corrected organiser copies the script without any condition on the build folders |
| OrganizeEffects.OrganizeCorrectedCleansUp | PyToExe/py2exe_converter.py:505-523 | The corrected organiser removes both `.spec` files and each build folder that does not hold the project |
| OrganizeFrame.OrganizeCorrectedFrame | PyToExe/py2exe_converter.py:485-523 | The corrected organiser changes no path outside the same set |
| Window.Autofill | PyToExe/py2exe_converter.py:575-583 | A cancelled dialog changes nothing; otherwise the script field takes the path, a filled field keeps its text, an empty output takes the script's folder and an empty name takes the script's stem |
| Window.MainWindow.BrowseScript | PyToExe/py2exe_converter.py:568-583 | The fields become `Autofill` of the old fields; the log is unchanged |
| Window.OrganizerOutputDir | PyToExe/py2exe_converter.py:739 | The organiser's output directory is the output field's text when it is non-empty, and otherwise a directory prefix of the script path |
| Window.AutofillSetsOutputDir | PyToExe/py2exe_converter.py:739 | After a script was chosen, the organiser's output directory is the output field's text |
| Window.AutofillKeepsArtifactName | PyToExe/py2exe_converter.py:581-583 | An autofilled name gives the exe the name an empty name field would give |
| Window.ReportedExeNamed | PyToExe/py2exe_converter.py:247-250 | The reported exe path has base name `<name>.exe`, as the organiser theorems require |
| Window.MainWindow.OnBuildFinished | PyToExe/py2exe_converter.py:726-765 | On success, organises when asked (output field or script folder), then states success under the exe path the organiser returned; on failure, shows the message; the fields never change |
| Window.MainWindow.Announce | PyToExe/py2exe_converter.py:746-752 | Sets the status text and appends the lines; nothing else changes |
| Window.StatusNamesExe | PyToExe/py2exe_converter.py:746 | After organising, the status names the same exe file as the worker reported |

## Left out

- The Qt widgets, signals and the event loop are left out. The window keeps only the text fields, the log, the status text and the file system.
- Threads are left out. A `cancel()` from the GUI thread is an input (the arrivals oracle), not a concurrent call.
- The PyInstaller child process is an input. It is described by its output lines and two endings (each a return code or an exception): its own, and the one it has after `terminate()`.
- Worker.LateCancelOutcome: the killed child's return code (-15 on POSIX, 1 on Windows) is the input `killed`, not derived from the signal `terminate()` sends.
- Pillow is left out: opening, resizing and saving images. `converts` stands for "conversion succeeds"; the sizes are kept.
- `convert_to_ico`'s log lines and its ImportError branch (pip install and retry) are left out. The retry gives one of the same two results.
- `create_desktop_shortcut` (registry, COM, `.lnk`) is left out. It writes nothing the model tracks.
- Window.MainWindow.OnBuildFinished: covers the shortcut box only when unchecked, and leaves out the open-folder step (`os.startfile`).
- `start_build`, `cancel_build`, `check_dependencies` and `browse_icon` are left out. They are widget wiring, input checks and pip calls.
- Paths are `/`-separated. `os.path.abspath` is a join onto the working directory without normalising `..`, `.` or repeated separators, and Windows drive letters and `\` are not modelled.
- `str.lower` is modelled on ASCII letters only.
- Exception texts follow CPython's `[Errno n] ...: 'path'` form but are approximations.
- `shutil.move` of a directory, and moves across devices, are not modelled: moving a directory fails. `os.makedirs` and `shutil.rmtree` are all-or-nothing; a partial effect before an error is not modelled.
- Files.MoveOutcome: a target whose parent directory is missing is not modelled. Python raises FileNotFoundError there; the model moves the file. `organize_project` creates the parent first, so this case does not arise in it.
- Files.CopyOutcome: a target whose parent directory is missing is not modelled. Python raises FileNotFoundError there; the model copies the file. `organize_project` creates the parent first, so this case does not arise in it.
- OrganizeEffects.OrganizeMovesExe: requires an exe path ending in `.exe`, an existing exe file, no directory at the new path, the exe not inside `py_file`, and the new exe path outside both build folders (the case `BuildNamedExeLost` shows otherwise).
- OrganizeEffects.OrganizeCopiesScript: requires in addition a script ending in `.py` that is neither the exe nor the new exe, and a destination outside both build folders.
- OrganizeFrame.OrganizeFrame: requires an exe path ending in `.exe`, so that the base name is not a `.spec` name or `py_file`.
- Labels.BasePreserved: requires that the base label holds no "✓ " or "✗ " marker; without it restyling is not stable (`RestyleNotIdempotent`).
- Labels.RestyleToggles: same marker requirement as `BasePreserved`.
- Labels.RestyleIdempotent: same marker requirement as `BasePreserved`.
- Window.ReportedExeNamed: requires a name field without `/`; a name with a separator would put the exe in a sub-folder.
- Worker.ArtifactPathParts: requires a name that is separator-free and not dots only, and an output directory in the form `dirname` returns.

## Findings

| source | as written | input that shows it | evidently intended | confidence | as-written member | corrected member |
|---|---|---|---|---|---|---|
| PyToExe/py2exe_converter.py:485-519 | The project folder is `output_dir/<exe stem>`, and the cleanup then runs `rmtree` on `output_dir/build`. For an exe named `build.exe` these are the same folder, so the exe just moved there and the copied script are deleted, and the returned path names a missing file | exe `/w/dist/build.exe`, output directory `/w/dist` | The cleanup spares a build folder that holds the project, so the organised exe survives | not executed | OrganizeEffects.BuildNamedExeLost | OrganizeEffects.OrganizeCorrectedKeepsExe |
| PyToExe/py2exe_converter.py:237-261 | The flag is checked only before each line is forwarded. A `cancel()` after the last line was read still terminates the child, and the worker then reports the killed child's return code as `Build fehlgeschlagen (Code: …)` | A cancel after PyInstaller's last output line, with the terminated process exiting with -15 | A requested cancel is reported as `Abgebrochen` | not executed | Worker.LateCancelReportedAsFailure | Worker.CorrectedReportsCancel |
