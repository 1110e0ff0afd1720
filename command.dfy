/**
 * The PyInstaller command line that `BuildWorker.run` assembles, and a
 * reader that takes such a command line apart again. The round trip
 * `ParseCommandLine(CommandLine(c))` fixes the layout: which options
 * appear, in which order, and what follows each.
 */
module Command {
  import opened Wrappers

  /** The options dictionary handed to the worker. A missing key reads as
      false; `icon` is `None` when no icon is used. */
  datatype Options = Options(onefile: bool, windowed: bool, clean: bool, icon: Option<string>, noconsole: bool)

  /** What one build is started with: the interpreter running the converter
      (`sys.executable`), the script, the output directory and exe name as
      typed (possibly empty) and the options. */
  datatype BuildConfig = BuildConfig(python: string, scriptPath: string, outputDir: string, exeName: string, options: Options)

  /** The icon argument, or "" when there is none: `options.get("icon")`
      is used only when it is truthy. */
  function IconArg(o: Options): (icon: string)
    ensures icon == "" <==> o.icon.None? || o.icon.value == ""
    ensures icon != "" ==> icon == o.icon.value
  {
    if o.icon.Some? then o.icon.value else ""
  }

  function Flag(set_: bool, flag: string): seq<string> {
    if set_ then [flag] else []
  }

  function Valued(key: string, value: string): seq<string> {
    if value != "" then [key, value] else []
  }

  /** The options between the module invocation and the script. */
  function OptionArgs(c: BuildConfig): seq<string> {
    Flag(c.options.onefile, "--onefile")
    + (Flag(c.options.windowed, "--windowed")
    + (Flag(c.options.clean, "--clean")
    + (Valued("--name", c.exeName)
    + (Valued("--distpath", c.outputDir)
    + (Valued("--icon", IconArg(c.options))
    + Flag(c.options.noconsole, "--noconsole"))))))
  }

  /** The complete argument list. */
  function CommandLine(c: BuildConfig): (cmd: seq<string>)
    ensures |cmd| >= 4
    ensures cmd[..3] == [c.python, "-m", "PyInstaller"]
    ensures cmd[|cmd| - 1] == c.scriptPath
    ensures |cmd| <= 14
  {
    [c.python, "-m", "PyInstaller"] + OptionArgs(c) + [c.scriptPath]
  }

  /** What a command line says, read back. */
  datatype Parsed = Parsed(python: string, onefile: bool, windowed: bool, clean: bool,
                           name: string, distpath: string, icon: string, noconsole: bool,
                           script: string)

  function TakeFlag(args: seq<string>, flag: string): (bool, seq<string>) {
    if args != [] && args[0] == flag then (true, args[1..]) else (false, args)
  }

  function TakeValued(args: seq<string>, key: string): (string, seq<string>) {
    if |args| >= 2 && args[0] == key then (args[1], args[2..]) else ("", args)
  }

  /** Reads the options in the one order the builder writes them; `None`
      when anything is left over. */
  function ParseOptions(args: seq<string>): Option<(bool, bool, bool, string, string, string, bool)> {
    var (onefile, r1) := TakeFlag(args, "--onefile");
    var (windowed, r2) := TakeFlag(r1, "--windowed");
    var (clean, r3) := TakeFlag(r2, "--clean");
    var (name, r4) := TakeValued(r3, "--name");
    var (dist, r5) := TakeValued(r4, "--distpath");
    var (icon, r6) := TakeValued(r5, "--icon");
    var (noconsole, r7) := TakeFlag(r6, "--noconsole");
    if r7 == [] then Some((onefile, windowed, clean, name, dist, icon, noconsole)) else None
  }

  /** Reads a PyInstaller command line: interpreter, `-m PyInstaller`, the
      options, and the script as the last argument. */
  function ParseCommandLine(cmd: seq<string>): Option<Parsed> {
    if |cmd| < 4 || cmd[1] != "-m" || cmd[2] != "PyInstaller" then None
    else
      match ParseOptions(cmd[3..|cmd| - 1])
      case None => None
      case Some((onefile, windowed, clean, name, dist, icon, noconsole)) =>
        Some(Parsed(cmd[0], onefile, windowed, clean, name, dist, icon, noconsole, cmd[|cmd| - 1]))
  }

  /** What a command line built from `c` should say. */
  function Intended(c: BuildConfig): Parsed {
    Parsed(c.python, c.options.onefile, c.options.windowed, c.options.clean,
           c.exeName, c.outputDir, IconArg(c.options), c.options.noconsole, c.scriptPath)
  }

  /** No option written later can be mistaken for `key`. */
  predicate StartsOtherwise(rest: seq<string>, key: string) {
    rest == [] || rest[0] != key
  }

  lemma {:induction false} TakeFlagOf(b: bool, flag: string, rest: seq<string>)
    requires StartsOtherwise(rest, flag)
    ensures TakeFlag(Flag(b, flag) + rest, flag) == (b, rest)
  {
    if b {
      assert (Flag(b, flag) + rest)[1..] == rest;
    } else {
      assert Flag(b, flag) + rest == rest;
    }
  }

  lemma {:induction false} TakeValuedOf(key: string, value: string, rest: seq<string>)
    requires StartsOtherwise(rest, key)
    ensures TakeValued(Valued(key, value) + rest, key) == (value, rest)
  {
    if value != "" {
      assert (Valued(key, value) + rest)[2..] == rest;
    } else {
      assert Valued(key, value) + rest == rest;
    }
  }

  /** The first argument of `rest`, if any, is one of `heads`. */
  predicate HeadIn(rest: seq<string>, heads: set<string>) {
    rest == [] || rest[0] in heads
  }

  lemma {:induction false} HeadAfterFlag(b: bool, flag: string, rest: seq<string>, heads: set<string>)
    requires HeadIn(rest, heads)
    ensures HeadIn(Flag(b, flag) + rest, heads + {flag})
  {
    if !b { assert Flag(b, flag) + rest == rest; }
  }

  lemma {:induction false} HeadAfterValued(key: string, value: string, rest: seq<string>, heads: set<string>)
    requires HeadIn(rest, heads)
    ensures HeadIn(Valued(key, value) + rest, heads + {key})
  {
    if value == "" { assert Valued(key, value) + rest == rest; }
  }

  /** The builder's options are read back exactly: each flag is present iff
      it is set, each valued option iff its value is non-empty and then
      followed by that value, all in the fixed order. */
  lemma {:induction false} ParseOptionArgs(c: BuildConfig)
    ensures ParseOptions(OptionArgs(c)) == Some((c.options.onefile, c.options.windowed, c.options.clean,
                                                c.exeName, c.outputDir, IconArg(c.options), c.options.noconsole))
  {
    var o := c.options;
    var s7 := Flag(o.noconsole, "--noconsole");
    var s6 := Valued("--icon", IconArg(o)) + s7;
    var s5 := Valued("--distpath", c.outputDir) + s6;
    var s4 := Valued("--name", c.exeName) + s5;
    var s3 := Flag(o.clean, "--clean") + s4;
    var s2 := Flag(o.windowed, "--windowed") + s3;
    var s1 := Flag(o.onefile, "--onefile") + s2;
    assert OptionArgs(c) == s1;
    OptionHeads(c);
    TakeFlagOf(o.onefile, "--onefile", s2);
    TakeFlagOf(o.windowed, "--windowed", s3);
    TakeFlagOf(o.clean, "--clean", s4);
    TakeValuedOf("--name", c.exeName, s5);
    TakeValuedOf("--distpath", c.outputDir, s6);
    TakeValuedOf("--icon", IconArg(o), s7);
    TakeFlagOf(o.noconsole, "--noconsole", []);
    assert s7 == Flag(o.noconsole, "--noconsole") + [];
    ParseChain(s1, s2, s3, s4, s5, s6, s7, o.onefile, o.windowed, o.clean,
               c.exeName, c.outputDir, IconArg(o), o.noconsole);
  }

  /** After each option the builder writes, the next argument is none of
      the keys read so far. */
  lemma {:induction false} OptionHeads(c: BuildConfig)
    ensures var o := c.options;
      var s7 := Flag(o.noconsole, "--noconsole");
      var s6 := Valued("--icon", IconArg(o)) + s7;
      var s5 := Valued("--distpath", c.outputDir) + s6;
      var s4 := Valued("--name", c.exeName) + s5;
      var s3 := Flag(o.clean, "--clean") + s4;
      var s2 := Flag(o.windowed, "--windowed") + s3;
      && StartsOtherwise(s2, "--onefile") && StartsOtherwise(s3, "--windowed")
      && StartsOtherwise(s4, "--clean") && StartsOtherwise(s5, "--name")
      && StartsOtherwise(s6, "--distpath") && StartsOtherwise(s7, "--icon")
  {
    var o := c.options;
    var s7 := Flag(o.noconsole, "--noconsole");
    var s6 := Valued("--icon", IconArg(o)) + s7;
    var s5 := Valued("--distpath", c.outputDir) + s6;
    var s4 := Valued("--name", c.exeName) + s5;
    var s3 := Flag(o.clean, "--clean") + s4;
    HeadAfterFlag(o.noconsole, "--noconsole", [], {});
    HeadAfterValued("--icon", IconArg(o), s7, {"--noconsole"});
    HeadAfterValued("--distpath", c.outputDir, s6, {"--icon", "--noconsole"});
    HeadAfterValued("--name", c.exeName, s5, {"--distpath", "--icon", "--noconsole"});
    HeadAfterFlag(o.clean, "--clean", s4, {"--name", "--distpath", "--icon", "--noconsole"});
    HeadAfterFlag(o.windowed, "--windowed", s3, {"--clean", "--name", "--distpath", "--icon", "--noconsole"});
    assert [] + s7 == s7;
  }

  /** Seven reads that each take what was written leave nothing over. */
  lemma ParseChain(s1: seq<string>, s2: seq<string>, s3: seq<string>, s4: seq<string>, s5: seq<string>,
                   s6: seq<string>, s7: seq<string>, onefile: bool, windowed: bool, clean: bool,
                   name: string, dist: string, icon: string, noconsole: bool)
    requires TakeFlag(s1, "--onefile") == (onefile, s2)
    requires TakeFlag(s2, "--windowed") == (windowed, s3)
    requires TakeFlag(s3, "--clean") == (clean, s4)
    requires TakeValued(s4, "--name") == (name, s5)
    requires TakeValued(s5, "--distpath") == (dist, s6)
    requires TakeValued(s6, "--icon") == (icon, s7)
    requires TakeFlag(s7, "--noconsole") == (noconsole, [])
    ensures ParseOptions(s1) == Some((onefile, windowed, clean, name, dist, icon, noconsole))
  {
  }

  /** Reading the command line back gives exactly the configuration it was
      built from: the layout is `[python, "-m", "PyInstaller"]`, then
      `--onefile`, `--windowed`, `--clean` iff set, `--name`, `--distpath`,
      `--icon` iff non-empty and each followed by its value, `--noconsole`
      iff set, and the script last. */
  lemma {:induction false} CommandLineRoundTrip(c: BuildConfig)
    ensures ParseCommandLine(CommandLine(c)) == Some(Intended(c))
  {
    var cmd := CommandLine(c);
    assert cmd[3..|cmd| - 1] == OptionArgs(c);
    ParseOptionArgs(c);
  }

  /** The example of a build with every flag set, a name, an output
      directory and no icon. */
  lemma CommandLineExample(python: string, script: string)
    ensures CommandLine(BuildConfig(python, script, "/out", "app", Options(true, true, true, None, false)))
         == [python, "-m", "PyInstaller", "--onefile", "--windowed", "--clean",
             "--name", "app", "--distpath", "/out", script]
  {
  }
}
