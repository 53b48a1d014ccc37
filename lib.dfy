/**
 * The switch orchestration of `lib.rs`: the persisted configuration, the
 * error taxonomy, and `switch`, which validates the configured path and then
 * hands a fixed, ordered list of shell commands to an executer one at a time,
 * stopping at the first failure.
 */
module SystemManager {
  import opened Results
  import opened StdPath
  import opened Text
  import CB = CommandBuilder

  /** `Errors`: every error the program reports. Library error payloads are kept opaque. */
  datatype Errors =
    | NotLinux
    | NoCommand
    | ConfigPath(reason: string)              // an `app_dirs2::AppDirsError`
    | ConfigFileRead(path: OsPath)
    | ConfigParse(reason: string)             // a `serde_json::Error`
    | ConfigWrite(path: OsPath)
    | InvalidPath(error: CB.IoError)
    | PathNotSet
    | NotUTFPath
    | CommandError(cause: CB.CommandError)

  /** `Config`: the identity selecting a flake output, and the path to the nix configuration. */
  datatype Config = Config(identity: string, nixPath: Option<OsPath>)

  /** `Config::default()`. */
  function DefaultConfig(): (c: Config)
    ensures c.identity == "undefined" && c.nixPath == None
  {
    Config("undefined", None)
  }

  /** The switch target `switch` understands. */
  datatype SwitchTarget = Home | System

  /** The arguments `switch` destructures. */
  datatype SwitchArgs = SwitchArgs(target: SwitchTarget, displayCommand: bool, noUpdate: bool)

  // The fixed command texts below are written as concatenations of short
  // literals; each spells exactly the text the source passes to `execute`.

  /** The informational echo issued before a system rebuild. */
  const SudoNotice: string := "echo " + "'Sudo perms required " + "for system rebuild.'"

  /** The elevated no-op that makes sudo ask for credentials up front. */
  const SudoProbe: string := "sudo echo " + "'Sudo perms given " + "for system rebuild.'"

  /** The start of the flake-lock update command. */
  const UpdatePrefix: string := "nix flake update --flake "

  /** The start of the home-manager apply command. */
  const HomeApplyPrefix: string := "home-manager switch --flake "

  /** The nix option enabling the experimental features the configuration needs. */
  const FeatureOption: string := "--option " + "experimental-features " + "'nix-command " + "flakes " + "pipe-operators' "

  /** The start of the system apply command: sudo, the feature option, then the switch. */
  const SystemApplyPrefix: string := "sudo nixos-rebuild " + FeatureOption + "switch --flake "

  /** The flake-lock update for the configuration at `path`. */
  function UpdateCommand(path: string): string {
    UpdatePrefix + path
  }

  /** The command applying the configuration `path#identity` to the target. */
  function ApplyCommand(target: SwitchTarget, path: string, identity: string): string {
    match target
    case Home => HomeApplyPrefix + path + "#" + identity
    case System => SystemApplyPrefix + path + "#" + identity
  }

  /** The privilege pre-flight: two commands for a system switch, none for a home switch. */
  function Preflight(target: SwitchTarget): seq<string> {
    if target == System then [SudoNotice, SudoProbe] else []
  }

  /** The flake update step, skipped when `noUpdate` is set. */
  function UpdateStep(noUpdate: bool, path: string): seq<string> {
    if noUpdate then [] else [UpdateCommand(path)]
  }

  /**
   * What `switch` decides before running anything: a path error, or the exact
   * commands it hands to the executer, in order.
   */
  function SwitchPlan(config: Config, args: SwitchArgs): (r: Result<seq<string>, Errors>)
    ensures config.nixPath == None ==> r == Err(PathNotSet)
    ensures config.nixPath.Some? && config.nixPath.value.NonUtf8Path? ==> r == Err(NotUTFPath)
    ensures r.Ok? <==> config.nixPath.Some? && config.nixPath.value.TextPath?
    ensures r.Ok? ==>
      |r.value| == (if args.target == System then 2 else 0) + (if args.noUpdate then 0 else 1) + 1
  {
    match config.nixPath
    case None => Err(PathNotSet)
    case Some(p) =>
      match ToStr(p)
      case None => Err(NotUTFPath)
      case Some(path) =>
        Ok(Preflight(args.target) + UpdateStep(args.noUpdate, path)
           + [ApplyCommand(args.target, path, config.identity)])
  }

  /** `switch` reads neither the display flag of its arguments nor anything but the target and `noUpdate`. */
  lemma PlanIgnoresDisplayCommand(config: Config, args: SwitchArgs)
    ensures SwitchPlan(config, args) == SwitchPlan(config, args.(displayCommand := !args.displayCommand))
  {
  }

  /** The default configuration has no path, so `switch` refuses it before running anything. */
  lemma DefaultConfigCannotSwitch(args: SwitchArgs)
    ensures SwitchPlan(DefaultConfig(), args) == Err(PathNotSet)
  {
  }

  /** The characters that tell the five kinds of command apart. */
  lemma CommandHeads(path: string, identity: string)
    ensures SudoNotice[0] == 'e'
    ensures |SudoProbe| > 5 && SudoProbe[0] == 's' && SudoProbe[5] == 'e'
    ensures UpdateCommand(path)[0] == 'n'
    ensures ApplyCommand(Home, path, identity)[0] == 'h'
    ensures |ApplyCommand(System, path, identity)| > 5
    ensures ApplyCommand(System, path, identity)[0] == 's' && ApplyCommand(System, path, identity)[5] == 'n'
  {
  }

  /** For a system target the first two commands are the pre-flight; for a home target neither appears. */
  lemma PreflightIffSystem(config: Config, args: SwitchArgs)
    requires SwitchPlan(config, args).Ok?
    ensures var cmds := SwitchPlan(config, args).value;
      && (SudoNotice in cmds <==> args.target == System)
      && (SudoProbe in cmds <==> args.target == System)
      && (args.target == System ==> cmds[0] == SudoNotice && cmds[1] == SudoProbe)
  {
    var cmds := SwitchPlan(config, args).value;
    CommandHeads(config.nixPath.value.text, config.identity);
    assert SudoNotice != SudoProbe by { assert SudoNotice[0] != SudoProbe[0]; }
  }

  /** The flake update is issued exactly when `noUpdate` is false, after any pre-flight and just before the apply. */
  lemma UpdateIffNotNoUpdate(config: Config, args: SwitchArgs)
    requires SwitchPlan(config, args).Ok?
    ensures var cmds := SwitchPlan(config, args).value;
      var path := config.nixPath.value.text;
      && (UpdateCommand(path) in cmds <==> !args.noUpdate)
      && (!args.noUpdate ==> cmds[|Preflight(args.target)|] == UpdateCommand(path))
      && (!args.noUpdate ==> |cmds| == |Preflight(args.target)| + 2)
  {
    var path := config.nixPath.value.text;
    CommandHeads(path, config.identity);
  }

  /** The last command is the target's apply command, built from the path and the identity. */
  lemma LastIsApply(config: Config, args: SwitchArgs)
    requires SwitchPlan(config, args).Ok?
    ensures var cmds := SwitchPlan(config, args).value;
      var path := config.nixPath.value.text;
      && cmds[|cmds| - 1] == ApplyCommand(args.target, path, config.identity)
      && forall k :: 0 <= k < |cmds| - 1 ==>
           cmds[k] != ApplyCommand(Home, path, config.identity) && cmds[k] != ApplyCommand(System, path, config.identity)
  {
    var path := config.nixPath.value.text;
    CommandHeads(path, config.identity);
  }

  /** A command that applies a configuration, to either target, told apart by the characters `CommandHeads` gives. */
  predicate IsApply(c: string) {
    (|c| > 0 && c[0] == 'h') || (|c| > 5 && c[0] == 's' && c[5] == 'n')
  }

  /** No command appears twice in a plan. */
  lemma PlanCommandsDistinct(config: Config, args: SwitchArgs)
    requires SwitchPlan(config, args).Ok?
    ensures var cmds := SwitchPlan(config, args).value;
      forall i, j :: 0 <= i < j < |cmds| ==> cmds[i] != cmds[j]
  {
    var path := config.nixPath.value.text;
    CommandHeads(path, config.identity);
    var cmds := SwitchPlan(config, args).value;
    assert SudoNotice != SudoProbe by { assert SudoNotice[0] != SudoProbe[0]; }
    forall i, j | 0 <= i < j < |cmds|
      ensures cmds[i] != cmds[j]
    {
      assert IsApply(cmds[|cmds| - 1]);
      assert j < |cmds| - 1 ==> !IsApply(cmds[i]) && !IsApply(cmds[j]);
    }
  }

  /** Every command built from a single-line path and identity is a single line. */
  lemma CommandsAreLines(path: string, identity: string)
    requires NoNewline(path) && NoNewline(identity)
    ensures NoNewline(SudoNotice) && NoNewline(SudoProbe) && NoNewline(UpdateCommand(path))
    ensures NoNewline(ApplyCommand(Home, path, identity)) && NoNewline(ApplyCommand(System, path, identity))
  {
    FixedTextsAreLines();
    assert NoNewline(path + "#" + identity);
    assert HomeApplyPrefix + path + "#" + identity == HomeApplyPrefix + (path + "#" + identity);
    assert SystemApplyPrefix + path + "#" + identity == SystemApplyPrefix + (path + "#" + identity);
  }

  /** The fixed command texts hold no newline, each shown on its own. */
  lemma FixedTextsAreLines()
    ensures NoNewline(SudoNotice) && NoNewline(SudoProbe)
    ensures NoNewline(UpdatePrefix) && NoNewline(HomeApplyPrefix) && NoNewline(SystemApplyPrefix)
  {
    NoticeIsLine();
    ProbeIsLine();
    PrefixesAreLines();
  }

  lemma NoticeIsLine() ensures NoNewline(SudoNotice) {}
  lemma ProbeIsLine() ensures NoNewline(SudoProbe) {}
  lemma FeatureOptionIsLine() ensures NoNewline(FeatureOption) {}
  lemma PrefixesAreLines()
    ensures NoNewline(UpdatePrefix) && NoNewline(HomeApplyPrefix) && NoNewline(SystemApplyPrefix)
  {
    FeatureOptionIsLine();
  }

  /** When the path and the identity are single lines, so is every planned command. */
  lemma PlanHasNoNewlines(config: Config, args: SwitchArgs)
    requires SwitchPlan(config, args).Ok?
    requires NoNewline(config.nixPath.value.text) && NoNewline(config.identity)
    ensures var cmds := SwitchPlan(config, args).value;
      forall k :: 0 <= k < |cmds| ==> NoNewline(cmds[k])
  {
    var path := config.nixPath.value.text;
    var cmds := SwitchPlan(config, args).value;
    CommandsAreLines(path, config.identity);
  }

  /** The result of running a command list, the sink afterwards, and the commands handed to the executer. */
  datatype Run = Run(result: Result<(), CB.CommandError>, data: string, issued: seq<string>)

  /** A run preceded by commands that all succeeded. */
  function Prefixed(done: seq<string>, run: Run): Run {
    Run(run.result, run.data, done + run.issued)
  }

  /** Executes the commands in order with `?`: the first failure ends the run and is its result. */
  function RunAll(display: bool, kind: CB.SinkKind, data: string, world: CB.World, cmds: seq<string>): Run
    decreases |cmds|
  {
    if cmds == [] then Run(Ok(()), data, [])
    else
      var e := CB.Executed(display, kind, data, world, cmds[0]);
      if e.result.Err? then Run(e.result, e.data, [cmds[0]])
      else Prefixed([cmds[0]], RunAll(display, kind, e.data, world, cmds[1..]))
  }

  /**
   * The executer receives a prefix of the commands: all of them when the run
   * succeeds, at least one when it fails.
   */
  lemma {:induction false} RunIssuesPrefix(display: bool, kind: CB.SinkKind, data: string, world: CB.World, cmds: seq<string>)
    decreases |cmds|
    ensures var run := RunAll(display, kind, data, world, cmds);
      && |run.issued| <= |cmds| && run.issued == cmds[..|run.issued|]
      && (run.result.Ok? ==> run.issued == cmds)
      && (run.result.Err? ==> |run.issued| > 0)
  {
    if cmds != [] {
      var e := CB.Executed(display, kind, data, world, cmds[0]);
      if e.result.Ok? {
        RunIssuesPrefix(display, kind, e.data, world, cmds[1..]);
        var rest := RunAll(display, kind, e.data, world, cmds[1..]);
        assert RunAll(display, kind, data, world, cmds) == Prefixed([cmds[0]], rest);
        assert cmds[..|rest.issued| + 1] == [cmds[0]] + cmds[1..][..|rest.issued|];
        assert cmds == [cmds[0]] + cmds[1..];
      } else {
        assert RunAll(display, kind, data, world, cmds) == Run(e.result, e.data, [cmds[0]]);
        assert cmds[..1] == [cmds[0]];
      }
    }
  }

  /**
   * Halt on first failure: when the first `k` commands succeed and command `k`
   * fails, the run is that failure, the sink is as that command left it, and
   * no later command is handed to the executer.
   */
  lemma {:induction false} RunStopsAtFirstFailure(display: bool, kind: CB.SinkKind, data: string, world: CB.World, cmds: seq<string>, k: nat)
    requires k < |cmds|
    requires RunAll(display, kind, data, world, cmds[..k]).result.Ok?
    requires CB.Executed(display, kind, RunAll(display, kind, data, world, cmds[..k]).data, world, cmds[k]).result.Err?
    decreases k
    ensures var e := CB.Executed(display, kind, RunAll(display, kind, data, world, cmds[..k]).data, world, cmds[k]);
      RunAll(display, kind, data, world, cmds) == Run(e.result, e.data, cmds[..k + 1])
  {
    if k == 0 {
      assert cmds[..0] == [];
      assert cmds[..1] == [cmds[0]];
    } else {
      var e := CB.Executed(display, kind, data, world, cmds[0]);
      assert cmds[..k][0] == cmds[0];
      assert cmds[..k][1..] == cmds[1..][..k - 1];
      assert e.result.Ok?;
      RunStopsAtFirstFailure(display, kind, e.data, world, cmds[1..], k - 1);
      assert cmds[1..][k - 1] == cmds[k];
      assert cmds[..k + 1] == [cmds[0]] + cmds[1..][..k];
    }
  }

  /** The streaming executer never writes to its sink. */
  lemma {:induction false} StreamingLeavesSinkAlone(display: bool, data: string, world: CB.World, cmds: seq<string>)
    decreases |cmds|
    ensures RunAll(display, CB.Stdout, data, world, cmds).data == data
  {
    if cmds != [] {
      StreamingLeavesSinkAlone(display, data, world, cmds[1..]);
    }
  }

  /** A run only appends to the sink, and never overfills a fixed one. */
  lemma {:induction false} RunAppendsToSink(display: bool, kind: CB.SinkKind, data: string, world: CB.World, cmds: seq<string>)
    decreases |cmds|
    ensures var run := RunAll(display, kind, data, world, cmds);
      && |data| <= |run.data| && run.data[..|data|] == data
      && (kind.Fixed? && |data| <= kind.capacity ==> |run.data| <= kind.capacity)
  {
    if cmds != [] {
      var e := CB.Executed(display, kind, data, world, cmds[0]);
      CB.ExecutedAppends(display, kind, data, world, cmds[0]);
      if e.result.Ok? {
        RunAppendsToSink(display, kind, e.data, world, cmds[1..]);
        var run := RunAll(display, kind, e.data, world, cmds[1..]);
        assert run.data[..|e.data|][..|data|] == run.data[..|data|];
      }
    }
  }

  /** In display mode with a growable sink, each command is echoed as one line and every command succeeds. */
  lemma {:induction false} DisplayRunEchoes(data: string, world: CB.World, cmds: seq<string>)
    decreases |cmds|
    requires CB.EchoPrintsItsArgument(world)
    ensures RunAll(true, CB.Growable, data, world, cmds) == Run(Ok(()), data + Echoed(cmds), cmds)
  {
    if cmds != [] {
      var inv := CB.InvocationFor(true, cmds[0]);
      assert world(inv) == CB.Exited(cmds[0] + "\n", true);
      var d := data + (cmds[0] + "\n");
      DisplayRunEchoes(d, world, cmds[1..]);
      assert d + Echoed(cmds[1..]) == data + Echoed(cmds);
      assert [cmds[0]] + cmds[1..] == cmds;
    }
  }

  /** `?` on a command error: wrap it as `Errors::CommandError`. */
  function Lift(result: Result<(), CB.CommandError>): (r: Result<(), Errors>)
    ensures r.Ok? <==> result.Ok?
    ensures result.Err? ==> r == Err(CommandError(result.error))
  {
    match result
    case Ok(_) => Ok(())
    case Err(e) => Err(CommandError(e))
  }

  /**
   * A display-mode switch into an empty growable sink succeeds, and the lines
   * of its output are exactly the planned commands, in order.
   */
  lemma DisplaySwitchShowsPlan(config: Config, args: SwitchArgs, world: CB.World)
    requires SwitchPlan(config, args).Ok?
    requires NoNewline(config.nixPath.value.text) && NoNewline(config.identity)
    requires CB.EchoPrintsItsArgument(world)
    ensures var cmds := SwitchPlan(config, args).value;
      var run := RunAll(true, CB.Growable, "", world, cmds);
      && run.result.Ok? && run.issued == cmds
      && SplitTerminator(run.data) == cmds
  {
    var cmds := SwitchPlan(config, args).value;
    DisplayRunEchoes("", world, cmds);
    assert "" + Echoed(cmds) == Echoed(cmds);
    PlanHasNoNewlines(config, args);
    SplitEchoed(cmds);
  }

  /** One more command of a run succeeded: it moves from the pending commands to the done ones. */
  lemma RunAdvances(display: bool, kind: CB.SinkKind, data: string, world: CB.World, done: seq<string>, rest: seq<string>)
    requires rest != []
    requires CB.Executed(display, kind, data, world, rest[0]).result.Ok?
    ensures Prefixed(done, RunAll(display, kind, data, world, rest))
         == Prefixed(done + [rest[0]], RunAll(display, kind, CB.Executed(display, kind, data, world, rest[0]).data, world, rest[1..]))
  {
  }

  /** The next command of a run failed: the run ends with it. */
  lemma RunEnds(display: bool, kind: CB.SinkKind, data: string, world: CB.World, done: seq<string>, rest: seq<string>)
    requires rest != []
    requires CB.Executed(display, kind, data, world, rest[0]).result.Err?
    ensures var e := CB.Executed(display, kind, data, world, rest[0]);
      Prefixed(done, RunAll(display, kind, data, world, rest)) == Run(e.result, e.data, done + [rest[0]])
  {
  }

  /**
   * The chain of `executer.execute(..)?` calls in `switch`, over the planned
   * commands: each command is executed in turn and the first failure is
   * returned at once.
   */
  method RunCommands(executer: CB.Executer, cmds: seq<string>, world: CB.World) returns (r: Result<(), CB.CommandError>)
    requires executer.Valid()
    modifies executer, executer.out
    ensures executer.Valid()
    ensures var run := RunAll(executer.display, executer.out.kind, old(executer.out.data), world, cmds);
      && r == run.result
      && executer.out.data == run.data
      && executer.issued == old(executer.issued) + run.issued
  {
    ghost var display, kind := executer.display, executer.out.kind;
    ghost var whole := RunAll(display, kind, executer.out.data, world, cmds);
    var i := 0;
    while i < |cmds|
      invariant 0 <= i <= |cmds|
      invariant executer.Valid()
      invariant whole == Prefixed(cmds[..i], RunAll(display, kind, executer.out.data, world, cmds[i..]))
      invariant executer.issued == old(executer.issued) + cmds[..i]
    {
      ghost var data, done, rest := executer.out.data, cmds[..i], cmds[i..];
      assert rest[0] == cmds[i] && rest[1..] == cmds[i + 1..];
      assert done + [cmds[i]] == cmds[..i + 1];
      var e := executer.Execute(cmds[i], world);
      if e.Err? {
        RunEnds(display, kind, data, world, done, rest);
        return e;
      }
      RunAdvances(display, kind, data, world, done, rest);
      i := i + 1;
    }
    assert cmds[..i] == cmds;
    return Ok(());
  }

  /**
   * `switch`: reads the target and `noUpdate` (never the display flag),
   * refuses a missing or non-UTF-8 path before running anything, and
   * otherwise executes the plan, stopping at the first failing command.
   */
  method Switch(config: Config, args: SwitchArgs, executer: CB.Executer, world: CB.World) returns (r: Result<(), Errors>)
    requires executer.Valid()
    modifies executer, executer.out
    ensures executer.Valid()
    ensures SwitchPlan(config, args).Err? ==>
      && r == Err(SwitchPlan(config, args).error)
      && executer.issued == old(executer.issued)
      && executer.out.data == old(executer.out.data)
    ensures SwitchPlan(config, args).Ok? ==>
      var run := RunAll(executer.display, executer.out.kind, old(executer.out.data), world, SwitchPlan(config, args).value);
      && r == Lift(run.result)
      && executer.out.data == run.data
      && executer.issued == old(executer.issued) + run.issued
  {
    var target, noUpdate := args.target, args.noUpdate;
    if config.nixPath.None? {
      return Err(PathNotSet);
    }
    var text := ToStr(config.nixPath.value);
    if text.None? {
      return Err(NotUTFPath);
    }
    var path := text.value;
    var commands := Preflight(target) + UpdateStep(noUpdate, path) + [ApplyCommand(target, path, config.identity)];
    var e := RunCommands(executer, commands, world);
    if e.Err? {
      return Err(CommandError(e.error));
    }
    return Ok(());
  }

  // The expectations of the unit tests of `switch`, which run it in display
  // mode (every command echoed) into an in-memory buffer and split the
  // buffer into lines.

  /** The configuration the unit tests switch with. */
  const TestConfig: Config := Config("test_identity", Some(TextPath("/path/to/flake.nix")))

  /** A display-mode switch of `TestConfig` into an empty in-memory buffer: its output split into lines. */
  ghost function TestOutput(args: SwitchArgs, world: CB.World): seq<string>
    requires SwitchPlan(TestConfig, args).Ok?
  {
    SplitTerminator(RunAll(true, CB.Growable, "", world, SwitchPlan(TestConfig, args).value).data)
  }

  /** A system switch that updates echoes the pre-flight, the update and the system rebuild, in that order. */
  lemma SystemSwitchTestVector(world: CB.World)
    requires CB.EchoPrintsItsArgument(world)
    ensures RunAll(true, CB.Growable, "", world, SwitchPlan(TestConfig, SwitchArgs(System, false, false)).value).result.Ok?
    ensures TestOutput(SwitchArgs(System, false, false), world) == [
      "echo " + "'Sudo perms required " + "for system rebuild.'",
      "sudo echo " + "'Sudo perms given " + "for system rebuild.'",
      "nix flake update --flake " + "/path/to/flake.nix",
      "sudo nixos-rebuild " + "--option " + "experimental-features " + "'nix-command " + "flakes " + "pipe-operators' "
        + "switch --flake " + "/path/to/flake.nix" + "#" + "test_identity"]
  {
    TestTextsAreLines();
    SystemApplyPrefixSpelled();
    var args := SwitchArgs(System, false, false);
    assert SwitchPlan(TestConfig, args).value == [SudoNotice, SudoProbe,
      UpdateCommand("/path/to/flake.nix"), ApplyCommand(System, "/path/to/flake.nix", "test_identity")];
    DisplaySwitchShowsPlan(TestConfig, args, world);
  }

  /** A home switch that updates echoes the update and the home-manager switch, in that order. */
  lemma HomeSwitchTestVector(world: CB.World)
    requires CB.EchoPrintsItsArgument(world)
    ensures RunAll(true, CB.Growable, "", world, SwitchPlan(TestConfig, SwitchArgs(Home, false, false)).value).result.Ok?
    ensures TestOutput(SwitchArgs(Home, false, false), world) == [
      "nix flake update --flake " + "/path/to/flake.nix",
      "home-manager switch --flake " + "/path/to/flake.nix" + "#" + "test_identity"]
  {
    TestTextsAreLines();
    var args := SwitchArgs(Home, false, false);
    assert SwitchPlan(TestConfig, args).value == [
      UpdateCommand("/path/to/flake.nix"), ApplyCommand(Home, "/path/to/flake.nix", "test_identity")];
    DisplaySwitchShowsPlan(TestConfig, args, world);
  }

  /** The system apply prefix, spelled out piece by piece. */
  lemma SystemApplyPrefixSpelled()
    ensures SystemApplyPrefix == "sudo nixos-rebuild " + "--option " + "experimental-features " + "'nix-command "
      + "flakes " + "pipe-operators' " + "switch --flake "
  {
  }

  /** The sudo notice, as one literal. */
  lemma SudoNoticeText()
    ensures SudoNotice == "echo 'Sudo perms required for system rebuild.'"
  {
  }

  /** The sudo probe, as one literal. */
  lemma SudoProbeText()
    ensures SudoProbe == "sudo echo 'Sudo perms given for system rebuild.'"
  {
  }

  /** The test path and identity are single lines. */
  lemma TestTextsAreLines()
    ensures NoNewline("/path/to/flake.nix") && NoNewline("test_identity")
  {
  }

  /** A system switch without updating echoes the pre-flight and the system rebuild only. */
  lemma SystemNoUpdateTestVector(world: CB.World)
    requires CB.EchoPrintsItsArgument(world)
    ensures RunAll(true, CB.Growable, "", world, SwitchPlan(TestConfig, SwitchArgs(System, false, true)).value).result.Ok?
    ensures TestOutput(SwitchArgs(System, false, true), world) == [
      "echo " + "'Sudo perms required " + "for system rebuild.'",
      "sudo echo " + "'Sudo perms given " + "for system rebuild.'",
      "sudo nixos-rebuild " + "--option " + "experimental-features " + "'nix-command " + "flakes " + "pipe-operators' "
        + "switch --flake " + "/path/to/flake.nix" + "#" + "test_identity"]
  {
    TestTextsAreLines();
    SystemApplyPrefixSpelled();
    var args := SwitchArgs(System, false, true);
    assert SwitchPlan(TestConfig, args).value == [SudoNotice, SudoProbe,
      ApplyCommand(System, "/path/to/flake.nix", "test_identity")];
    DisplaySwitchShowsPlan(TestConfig, args, world);
  }

  /** A home switch without updating echoes the home-manager switch only. */
  lemma HomeNoUpdateTestVector(world: CB.World)
    requires CB.EchoPrintsItsArgument(world)
    ensures RunAll(true, CB.Growable, "", world, SwitchPlan(TestConfig, SwitchArgs(Home, false, true)).value).result.Ok?
    ensures TestOutput(SwitchArgs(Home, false, true), world) == [
      "home-manager switch --flake " + "/path/to/flake.nix" + "#" + "test_identity"]
  {
    TestTextsAreLines();
    var args := SwitchArgs(Home, false, true);
    assert SwitchPlan(TestConfig, args).value == [ApplyCommand(Home, "/path/to/flake.nix", "test_identity")];
    DisplaySwitchShowsPlan(TestConfig, args, world);
  }

  /**
   * The "no update" unit tests leave `no_update` false and expect the update
   * to be skipped; `switch` decides by `no_update` alone, so it still
   * echoes the update, one line more than those tests expect.
   */
  lemma NoUpdateTestsExpectOneLineLess(target: SwitchTarget, world: CB.World)
    requires CB.EchoPrintsItsArgument(world)
    ensures |TestOutput(SwitchArgs(target, false, false), world)| == (if target == System then 4 else 2)
    ensures UpdateCommand("/path/to/flake.nix") in TestOutput(SwitchArgs(target, false, false), world)
  {
    TestTextsAreLines();
    DisplaySwitchShowsPlan(TestConfig, SwitchArgs(target, false, false), world);
    UpdateIffNotNoUpdate(TestConfig, SwitchArgs(target, false, false));
  }
}
