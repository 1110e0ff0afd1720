/**
 * `BuildWorker`: runs PyInstaller with the assembled command line, relays
 * the child's output lines and ends with exactly one `finished` signal.
 *
 * The child process is an input: the lines it prints and how its stream
 * ends, both as it ends on its own and as it ends once `cancel()` has
 * terminated it. The thread that may call `cancel()` meanwhile is an input
 * too: an oracle `arrivals` whose i-th entry says that `cancel()` was called
 * before the worker looks at its flag after reading line i (the entry at
 * index |lines| stands for a call after the last line was read, which no
 * check sees but whose `terminate()` still decides how the stream ends).
 */
module Worker {
  import opened Wrappers
  import opened Paths
  import opened Text
  import opened Command

  /** A signal of the worker: a line for the log (`output`) or the terminal
      `finished(success, message)`. */
  datatype Event = Output(text: string) | Finished(success: bool, message: string)

  /** How the child's output stream ends once its last line is read: the
      process exits with a return code, or reading or waiting raises. */
  datatype Ending = Exited(code: int) | Raised(message: string)

  /** Starting the child: `Popen` raises, or the child prints `lines` and
      its stream ends as `ending`; `killed` is how it ends instead when
      `cancel()` terminates it after its last line was read (the killed
      process's return code, or `ending` again when it had already exited). */
  datatype Child = SpawnFailed(message: string) | Spawned(lines: seq<string>, ending: Ending, killed: Ending)

  const CancelledMessage: string := "Abgebrochen"
  const FailurePrefix: string := "Build fehlgeschlagen (Code: "

  /** The three lines emitted before the child is started. */
  function Header(cmd: seq<string>): (h: seq<Event>)
    ensures |h| == 3 && forall j | 0 <= j < 3 :: h[j].Output?
  {
    [Output("Starte Build...\n"),
     Output("Befehl: " + JoinWith(" ", cmd) + "\n"),
     Output(Repeat('-', 50) + "\n")]
  }

  /** The lines `lines`, each forwarded unchanged. */
  function Emit(lines: seq<string>): (e: seq<Event>)
    ensures |e| == |lines|
    ensures forall j | 0 <= j < |lines| :: e[j] == Output(lines[j])
  {
    seq(|lines|, j requires 0 <= j < |lines| => Output(lines[j]))
  }

  /** The name the artifact is expected under: the exe name, or the script's
      base name without its extension. */
  function ArtifactName(c: BuildConfig): string {
    if c.exeName != "" then c.exeName else Stem(Basename(c.scriptPath))
  }

  /** The directory the artifact is expected in: the output directory, or
      PyInstaller's default `dist`. */
  function ArtifactDir(c: BuildConfig): string {
    if c.outputDir != "" then c.outputDir else "dist"
  }

  /** The path reported on success. It is computed, never checked against
      the file system. */
  function ArtifactPath(c: BuildConfig): (path: string)
    ensures EndsWith(path, ArtifactName(c) + ".exe")
  {
    Join(ArtifactDir(c), ArtifactName(c) + ".exe")
  }

  function ExitMessage(code: int): string {
    FailurePrefix + IntToString(code) + ")"
  }

  /** The signal once the stream has ended without a cancel being seen:
      a success exactly for return code 0, reporting the artifact path. */
  function Final(c: BuildConfig, ending: Ending): (e: Event)
    ensures e.Finished?
    ensures e.success <==> ending == Exited(0)
    ensures e.success ==> e.message == ArtifactPath(c)
  {
    match ending
    case Exited(code) =>
      if code == 0 then Finished(true, ArtifactPath(c)) else Finished(false, ExitMessage(code))
    case Raised(m) => Finished(false, m)
  }

  /** `cancel()` was called before the flag is checked after line i. */
  predicate Arrives(arrivals: seq<bool>, i: nat) {
    i < |arrivals| && arrivals[i]
  }

  /** How the stream of a started child ends: terminated by a `cancel()`
      that came after the last line was read, or else on its own. */
  function StreamEnd(child: Child, arrivals: seq<bool>): (e: Ending)
    requires child.Spawned?
    ensures Arrives(arrivals, |child.lines|) ==> e == child.killed
    ensures !Arrives(arrivals, |child.lines|) ==> e == child.ending
  {
    if Arrives(arrivals, |child.lines|) then child.killed else child.ending
  }

  /** The signals from reading line i on, with `flag` the value of
      `_cancelled` before line i's check and `ending` how the stream ends. */
  function Relay(c: BuildConfig, lines: seq<string>, ending: Ending, arrivals: seq<bool>, flag: bool, i: nat): seq<Event>
    requires i <= |lines|
    decreases |lines| - i
  {
    if i == |lines| then [Final(c, ending)]
    else if flag || Arrives(arrivals, i) then [Finished(false, CancelledMessage)]
    else [Output(lines[i])] + Relay(c, lines, ending, arrivals, false, i + 1)
  }

  /** Every signal of one `run()` whose `_cancelled` flag starts as `flag0`:
      the three header lines, then only output lines, and one `finished`
      last. */
  function RunEvents(c: BuildConfig, child: Child, arrivals: seq<bool>, flag0: bool): (e: seq<Event>)
    ensures && |e| >= 4 && e[..3] == Header(CommandLine(c))
            && e[|e| - 1].Finished?
            && (forall j | 0 <= j < |e| - 1 :: e[j].Output?)
  {
    SignalsFramed(Header(CommandLine(c)), c, child, arrivals, flag0);
    Header(CommandLine(c)) + Signals(c, child, arrivals, flag0)
  }

  /** The signals after the header: the exception of `Popen`, or the relay. */
  function Signals(c: BuildConfig, child: Child, arrivals: seq<bool>, flag0: bool): seq<Event> {
    match child
    case SpawnFailed(m) => [Finished(false, m)]
    case Spawned(lines, _, _) => Relay(c, lines, StreamEnd(child, arrivals), arrivals, flag0, 0)
  }

  /** After three output lines, the signals are output lines and then one
      `finished`. */
  lemma SignalsFramed(h: seq<Event>, c: BuildConfig, child: Child, arrivals: seq<bool>, flag0: bool)
    requires |h| == 3 && h[0].Output? && h[1].Output? && h[2].Output?
    ensures var e := h + Signals(c, child, arrivals, flag0);
      && |e| >= 4 && e[..3] == h
      && e[|e| - 1].Finished?
      && (forall j | 0 <= j < |e| - 1 :: e[j].Output?)
  {
    match child {
      case SpawnFailed(m) =>
        Framed(h, [], Finished(false, m));
        assert h + [] == h;
      case Spawned(lines, _, _) =>
        var end := StreamEnd(child, arrivals);
        var k := CancelPoint(lines, arrivals, flag0, 0);
        RelayFromStart(c, lines, end, arrivals, flag0);
        Framed(h, Emit(lines[..k]), if k < |lines| then Finished(false, CancelledMessage) else Final(c, end));
    }
  }

  /** The index of the line whose check sees the flag raised (counting
      from i), or |lines| when no check does. */
  function CancelPoint(lines: seq<string>, arrivals: seq<bool>, flag: bool, i: nat): (k: nat)
    requires i <= |lines|
    ensures i <= k <= |lines|
    ensures k < |lines| ==> (k == i && flag) || Arrives(arrivals, k)
    ensures forall j | i <= j < k :: !Arrives(arrivals, j)
    ensures i < k ==> !flag
    decreases |lines| - i
  {
    if i == |lines| then |lines|
    else if flag || Arrives(arrivals, i) then i
    else CancelPoint(lines, arrivals, false, i + 1)
  }

  /** Some check of the flag after a read sees it raised. */
  predicate Observed(lines: seq<string>, arrivals: seq<bool>, flag0: bool) {
    |lines| > 0 && (flag0 || exists j | 0 <= j < |lines| :: Arrives(arrivals, j))
  }

  /** The terminal signal, stated by cases: the exception of `Popen`, the
      cancellation once a check sees the flag, otherwise the return code or
      the exception that ended the stream. */
  function ExpectedOutcome(c: BuildConfig, child: Child, arrivals: seq<bool>, flag0: bool): Event {
    match child
    case SpawnFailed(m) => Finished(false, m)
    case Spawned(lines, _, _) =>
      if Observed(lines, arrivals, flag0) then Finished(false, CancelledMessage) else Final(c, StreamEnd(child, arrivals))
  }

  lemma CancelPointIsObservation(lines: seq<string>, arrivals: seq<bool>, flag0: bool)
    ensures CancelPoint(lines, arrivals, flag0, 0) < |lines| <==> Observed(lines, arrivals, flag0)
  {
  }

  /** From line i on, the relay forwards the lines up to the cancel point
      and then signals the outcome. */
  lemma {:induction false} RelayShape(c: BuildConfig, lines: seq<string>, ending: Ending, arrivals: seq<bool>, flag: bool, i: nat)
    requires i <= |lines|
    ensures var k := CancelPoint(lines, arrivals, flag, i);
      Relay(c, lines, ending, arrivals, flag, i)
      == Emit(lines[i..k]) + [if k < |lines| then Finished(false, CancelledMessage) else Final(c, ending)]
    decreases |lines| - i
  {
    if i < |lines| && !(flag || Arrives(arrivals, i)) {
      RelayShape(c, lines, ending, arrivals, false, i + 1);
      var k := CancelPoint(lines, arrivals, false, i + 1);
      assert Emit(lines[i..k]) == [Output(lines[i])] + Emit(lines[i + 1..k]);
    } else {
      assert lines[i..i] == [];
    }
  }

  /** One run: the three header lines, then the child's lines in order and
      unchanged up to the first check that sees the flag (that line
      dropped), then exactly one `finished`, as `ExpectedOutcome` says. */
  lemma {:induction false} RunEventsShape(c: BuildConfig, child: Child, arrivals: seq<bool>, flag0: bool)
    ensures var e := RunEvents(c, child, arrivals, flag0);
      && |e| >= 4
      && e[..3] == Header(CommandLine(c))
      && e[|e| - 1] == ExpectedOutcome(c, child, arrivals, flag0)
      && (forall j | 0 <= j < |e| - 1 :: e[j].Output?)
      && (child.Spawned? ==>
            e[3..|e| - 1] == Emit(child.lines[..CancelPoint(child.lines, arrivals, flag0, 0)]))
  {
    var h := Header(CommandLine(c));
    match child {
      case SpawnFailed(m) =>
        Framed(h, [], Finished(false, m));
      case Spawned(lines, ending, killed) =>
        SpawnedEvents(c, lines, ending, killed, arrivals, flag0);
        Framed(h, Emit(lines[..CancelPoint(lines, arrivals, flag0, 0)]), ExpectedOutcome(c, child, arrivals, flag0));
    }
  }

  /** A spawned child's run is the header, the lines before the cancel
      point and the expected outcome. */
  lemma SpawnedEvents(c: BuildConfig, lines: seq<string>, ending: Ending, killed: Ending, arrivals: seq<bool>, flag0: bool)
    ensures RunEvents(c, Spawned(lines, ending, killed), arrivals, flag0)
         == Header(CommandLine(c)) + Emit(lines[..CancelPoint(lines, arrivals, flag0, 0)])
            + [ExpectedOutcome(c, Spawned(lines, ending, killed), arrivals, flag0)]
  {
    RelayFromStart(c, lines, StreamEnd(Spawned(lines, ending, killed), arrivals), arrivals, flag0);
    CancelPointIsObservation(lines, arrivals, flag0);
  }

  /** `RelayShape` from the first line. */
  lemma RelayFromStart(c: BuildConfig, lines: seq<string>, ending: Ending, arrivals: seq<bool>, flag0: bool)
    ensures var k := CancelPoint(lines, arrivals, flag0, 0);
      Relay(c, lines, ending, arrivals, flag0, 0)
      == Emit(lines[..k]) + [if k < |lines| then Finished(false, CancelledMessage) else Final(c, ending)]
  {
    RelayShape(c, lines, ending, arrivals, flag0, 0);
    var k := CancelPoint(lines, arrivals, flag0, 0);
    assert lines[0..k] == lines[..k];
  }

  /** Forwarding one more line appends its output. */
  lemma EmitStep(lines: seq<string>, i: nat)
    requires i < |lines|
    ensures Emit(lines[..i + 1]) == Emit(lines[..i]) + [Output(lines[i])]
  {
    assert Emit(lines[..i + 1]) == Emit(lines[..i]) + [Output(lines[i])];
  }

  /** Three output lines, more output lines and one last signal. */
  lemma Framed(h: seq<Event>, m: seq<Event>, last: Event)
    requires |h| == 3 && h[0].Output? && h[1].Output? && h[2].Output?
    requires forall j | 0 <= j < |m| :: m[j].Output?
    ensures var e := h + m + [last];
      && |e| >= 4
      && e[..3] == h
      && e[|e| - 1] == last
      && (forall j | 0 <= j < |e| - 1 :: e[j].Output?)
      && e[3..|e| - 1] == m
  {
    var e := h + m + [last];
    assert e[..3] == h;
    assert e[3..|e| - 1] == m;
  }

  /** Return code 0 with no cancel seen is the only way to succeed, and the
      success message is the computed artifact path. */
  lemma SuccessExactly(c: BuildConfig, child: Child, arrivals: seq<bool>, flag0: bool)
    ensures ExpectedOutcome(c, child, arrivals, flag0).success
        <==> child.Spawned? && !Observed(child.lines, arrivals, flag0) && StreamEnd(child, arrivals) == Exited(0)
    ensures ExpectedOutcome(c, child, arrivals, flag0).success ==>
              ExpectedOutcome(c, child, arrivals, flag0).message == ArtifactPath(c)
  {
  }

  /** A non-zero return code is reported with a message from which the code
      can be read back. */
  lemma {:induction false} ExitMessageCarriesCode(code: int)
    ensures var m := ExitMessage(code);
      && |FailurePrefix| < |m|
      && m[..|FailurePrefix|] == FailurePrefix
      && m[|m| - 1] == ')'
      && ParseInt(m[|FailurePrefix|..|m| - 1]) == Some(code)
  {
    var m := ExitMessage(code);
    assert m[|FailurePrefix|..|m| - 1] == IntToString(code);
    ParseIntToString(code);
  }

  /** A cancel that comes only after the last line was read is never seen
      by a check, so it is not reported as a cancel: the outcome is the one
      the stream's end decides, and that is the killed child's end once
      `terminate()` was called. */
  lemma LateCancelOutcome(c: BuildConfig, lines: seq<string>, ending: Ending, killed: Ending, arrivals: seq<bool>)
    requires forall j | 0 <= j < |arrivals| && j < |lines| :: !arrivals[j]
    ensures Arrives(arrivals, |lines|) ==>
              ExpectedOutcome(c, Spawned(lines, ending, killed), arrivals, false) == Final(c, killed)
    ensures !Arrives(arrivals, |lines|) ==>
              ExpectedOutcome(c, Spawned(lines, ending, killed), arrivals, false) == Final(c, ending)
  {
  }

  /** As written, a cancel during the child's last silent phase is reported
      as a failed build: `terminate()` ends the stream, no check of the flag
      follows, and a killed child's non-zero return code becomes the
      message. */
  lemma LateCancelReportedAsFailure(c: BuildConfig, lines: seq<string>, ending: Ending, code: int, arrivals: seq<bool>)
    requires forall j | 0 <= j < |lines| :: !Arrives(arrivals, j)
    requires Arrives(arrivals, |lines|) && code != 0
    ensures ExpectedOutcome(c, Spawned(lines, ending, Exited(code)), arrivals, false) == Finished(false, ExitMessage(code))
    ensures ExitMessage(code) != CancelledMessage
  {
    assert ExitMessage(code)[0] == 'B' && CancelledMessage[0] == 'A';
  }

  /** A cancel was asked for while the child ran: the flag was raised
      before the run, or `cancel()` came before one of the checks or after
      the last line was read. */
  predicate Requested(lines: seq<string>, arrivals: seq<bool>, flag0: bool) {
    flag0 || exists j | 0 <= j <= |lines| :: Arrives(arrivals, j)
  }

  /** The outcome with the flag checked once more after the loop, as the
      cancel button evidently intends: every requested cancel is reported
      as `Abgebrochen`. */
  function CorrectedOutcome(c: BuildConfig, child: Child, arrivals: seq<bool>, flag0: bool): Event {
    match child
    case SpawnFailed(m) => Finished(false, m)
    case Spawned(lines, ending, _) =>
      if Requested(lines, arrivals, flag0) then Finished(false, CancelledMessage) else Final(c, ending)
  }

  /** The corrected outcome reports every requested cancel as one, never
      reports success after a cancel, and agrees with the code as written
      whenever no cancel was requested. */
  lemma CorrectedReportsCancel(c: BuildConfig, child: Child, arrivals: seq<bool>, flag0: bool)
    requires child.Spawned?
    ensures Requested(child.lines, arrivals, flag0) ==>
              CorrectedOutcome(c, child, arrivals, flag0) == Finished(false, CancelledMessage)
    ensures CorrectedOutcome(c, child, arrivals, flag0).success
        <==> !Requested(child.lines, arrivals, flag0) && child.ending == Exited(0)
    ensures !Requested(child.lines, arrivals, flag0) ==>
              CorrectedOutcome(c, child, arrivals, flag0) == ExpectedOutcome(c, child, arrivals, flag0)
  {
    if !Requested(child.lines, arrivals, flag0) {
      assert !Arrives(arrivals, |child.lines|);
    }
  }

  /** With a name free of separators and a directory as `dirname` leaves
      it, the artifact path splits into that directory and `name.exe`, and
      the stem of that file name is the name again. */
  lemma {:induction false} ArtifactPathParts(c: BuildConfig)
    requires '/' !in ArtifactName(c) && !AllDots(ArtifactName(c))
    requires Canonical(ArtifactDir(c))
    ensures Dirname(ArtifactPath(c)) == ArtifactDir(c)
    ensures Basename(ArtifactPath(c)) == ArtifactName(c) + ".exe"
    ensures Stem(Basename(ArtifactPath(c))) == ArtifactName(c)
  {
    var n := ArtifactName(c);
    assert '/' !in n + ".exe" by {
      forall j | 0 <= j < |n| + 4 ensures (n + ".exe")[j] != '/' {
        if j < |n| { assert (n + ".exe")[j] == n[j]; }
      }
    }
    JoinSplits(ArtifactDir(c), n + ".exe");
    StemAfterExtension(n, ".exe");
  }

  /** With no cancel at all, every line is forwarded in order and unchanged,
      then the outcome of the stream's end. */
  lemma NoCancelForwardsAll(c: BuildConfig, lines: seq<string>, ending: Ending, killed: Ending)
    ensures RunEvents(c, Spawned(lines, ending, killed), [], false)
         == Header(CommandLine(c)) + Emit(lines) + [Final(c, ending)]
  {
    SpawnedEvents(c, lines, ending, killed, [], false);
    assert lines[..|lines|] == lines;
  }

  lemma OptionArgsInOrder(start: seq<string>, c: BuildConfig)
    ensures var o := c.options;
      start + Flag(o.onefile, "--onefile") + Flag(o.windowed, "--windowed") + Flag(o.clean, "--clean")
      + Valued("--name", c.exeName) + Valued("--distpath", c.outputDir) + Valued("--icon", IconArg(o))
      + Flag(o.noconsole, "--noconsole")
      == start + OptionArgs(c)
  {
    var o := c.options;
    var f1, f2, f3 := Flag(o.onefile, "--onefile"), Flag(o.windowed, "--windowed"), Flag(o.clean, "--clean");
    var v1, v2, v3 := Valued("--name", c.exeName), Valued("--distpath", c.outputDir), Valued("--icon", IconArg(o));
    var f4 := Flag(o.noconsole, "--noconsole");
    Reassociate(start + f1 + f2 + f3 + v1 + v2, v3, f4);
    Reassociate(start + f1 + f2 + f3 + v1, v2, v3 + f4);
    Reassociate(start + f1 + f2 + f3, v1, v2 + (v3 + f4));
    Reassociate(start + f1 + f2, f3, v1 + (v2 + (v3 + f4)));
    Reassociate(start + f1, f2, f3 + (v1 + (v2 + (v3 + f4))));
    Reassociate(start, f1, f2 + (f3 + (v1 + (v2 + (v3 + f4)))));
  }

  lemma Reassociate<T>(a: seq<T>, b: seq<T>, c: seq<T>)
    ensures (a + b) + c == a + (b + c)
    ensures a + [] == a
  {
  }

  /** The worker thread of one build. */
  class BuildWorker {
    const config: BuildConfig
    /** `self.process` is set. */
    var processStarted: bool
    /** `self.process.terminate()` was called. */
    var terminated: bool
    /** `self._cancelled`. */
    var cancelled: bool
    /** The signals emitted so far, in order. */
    var events: seq<Event>

    constructor (config: BuildConfig)
      ensures this.config == config
      ensures !processStarted && !terminated && !cancelled && events == []
    {
      this.config := config;
      processStarted, terminated, cancelled := false, false, false;
      events := [];
    }

    /** `cancel()`: raises the flag and terminates the child if one runs. */
    method Cancel()
      modifies this
      ensures cancelled
      ensures terminated == (old(terminated) || processStarted)
      ensures processStarted == old(processStarted) && events == old(events)
    {
      cancelled := true;
      if processStarted {
        terminated := true;
      }
    }

    /** The command list `run()` grows by `append` and `extend`. */
    method BuildCommand() returns (cmd: seq<string>)
      ensures cmd == CommandLine(config)
    {
      var o := config.options;
      cmd := [config.python, "-m", "PyInstaller"];
      ghost var start := cmd;
      cmd := AppendFlag(cmd, o.onefile, "--onefile");
      cmd := AppendFlag(cmd, o.windowed, "--windowed");
      cmd := AppendFlag(cmd, o.clean, "--clean");
      cmd := AppendValued(cmd, "--name", config.exeName);
      cmd := AppendValued(cmd, "--distpath", config.outputDir);
      cmd := AppendValued(cmd, "--icon", IconArg(o));
      cmd := AppendFlag(cmd, o.noconsole, "--noconsole");
      OptionArgsInOrder(start, config);
      cmd := cmd + [config.scriptPath];
    }

    /** `if set_: cmd.append(flag)`. */
    static method AppendFlag(cmd: seq<string>, set_: bool, flag: string) returns (r: seq<string>)
      ensures r == cmd + Flag(set_, flag)
    {
      r := cmd;
      if set_ {
        r := r + [flag];
      }
    }

    /** `if value: cmd.extend([key, value])`. */
    static method AppendValued(cmd: seq<string>, key: string, value: string) returns (r: seq<string>)
      ensures r == cmd + Valued(key, value)
    {
      r := cmd;
      if value != "" {
        r := r + [key, value];
      }
    }

    /** `run()`: the header, the relayed lines, one `finished`. */
    method Run(child: Child, arrivals: seq<bool>)
      modifies this
      ensures events == old(events) + RunEvents(config, child, arrivals, old(cancelled))
      ensures processStarted == (old(processStarted) || child.Spawned?)
      ensures child.Spawned? && (Observed(child.lines, arrivals, old(cancelled)) || Arrives(arrivals, |child.lines|))
              ==> cancelled && terminated
    {
      var cmd := BuildCommand();
      ghost var before := events;
      events := events + Header(cmd);
      match child {
        case SpawnFailed(m) =>
          events := events + [Finished(false, m)];
          Reassociate(before, Header(cmd), Signals(config, child, arrivals, old(cancelled)));
        case Spawned(lines, ending, killed) =>
          processStarted := true;
          RelayLines(lines, ending, killed, arrivals);
          assert Signals(config, child, arrivals, old(cancelled)) == Relay(config, lines, StreamEnd(child, arrivals), arrivals, old(cancelled), 0);
          Reassociate(before, Header(cmd), Signals(config, child, arrivals, old(cancelled)));
      }
    }

    /** The `for line in self.process.stdout` loop of `run()` and what
        follows it, once the child runs. */
    method RelayLines(lines: seq<string>, ending: Ending, killed: Ending, arrivals: seq<bool>)
      requires processStarted
      modifies this
      ensures events == old(events) + Relay(config, lines, StreamEnd(Spawned(lines, ending, killed), arrivals), arrivals, old(cancelled), 0)
      ensures processStarted
      ensures Observed(lines, arrivals, old(cancelled)) || Arrives(arrivals, |lines|) ==> cancelled && terminated
    {
      ghost var flag0 := cancelled;
      ghost var end := StreamEnd(Spawned(lines, ending, killed), arrivals);
      RelayFromStart(config, lines, end, arrivals, flag0);
      CancelPointIsObservation(lines, arrivals, flag0);
      ghost var k := CancelPoint(lines, arrivals, flag0, 0);
      var i := 0;
      while i < |lines|
        invariant 0 <= i <= k
        invariant processStarted
        invariant cancelled == (i == 0 && flag0)
        invariant events == old(events) + Emit(lines[..i])
      {
        if Arrives(arrivals, i) {
          Cancel();
        }
        if cancelled {
          assert i == k;
          terminated := true;
          events := events + [Finished(false, CancelledMessage)];
          return;
        }
        events := events + [Output(lines[i])];
        EmitStep(lines, i);
        i := i + 1;
      }
      assert i == k == |lines| && lines[..i] == lines[..k];
      var stop := ending;
      if Arrives(arrivals, |lines|) {
        Cancel();
        stop := killed;
      }
      assert stop == end;
      events := events + [Final(config, stop)];
    }
  }
}
