/**
 * The conversions of `options/mod.rs` from the parsed command line into the
 * task the program performs. Every conversion keeps the variant and its
 * payload; the only expansion is `both`, which becomes a system switch (kept
 * offline) followed by a home switch.
 */
module Options {
  import opened Results
  import opened StdPath
  import P = OptionsParsed

  /** `ToSwitch`: one target to switch. */
  datatype ToSwitch = HomeTarget | SystemTarget(offline: bool)

  /** `Switch`: the targets in the order to switch them, and the two flags. */
  datatype Switch = Switch(targets: seq<ToSwitch>, displayCommand: bool, update: bool)

  /** `Identity`. */
  datatype Identity = SetIdentity(identity: string) | GetIdentity(raw: bool)

  /** `ConfigPath`. */
  datatype ConfigPath = SetPath(path: OsPath) | GetPath(raw: bool)

  /** `Operation`. */
  datatype Operation =
    | SwitchOperation(switch: Switch)
    | IdentityOperation(identityOperation: Identity)
    | PathOperation(pathOperation: ConfigPath)
    | LogoOperation

  /** `Task`. */
  datatype Task = Completion(shell: P.Shell) | Command(option: Operation)

  /** The targets a parsed switch target expands to, in switch order. */
  function Targets(target: P.SwitchTarget): (r: seq<ToSwitch>)
    ensures 1 <= |r| <= 2
    ensures TargetOf(r) == Some(target)
  {
    match target
    case Home => [HomeTarget]
    case System(offline) => [SystemTarget(offline)]
    case Both => [SystemTarget(true), HomeTarget]
  }

  /** The parsed target a target list came from, if any: the inverse of `Targets`. */
  function TargetOf(targets: seq<ToSwitch>): Option<P.SwitchTarget> {
    if targets == [HomeTarget] then Some(P.Home)
    else if |targets| == 1 && targets[0].SystemTarget? then Some(P.System(targets[0].offline))
    else if targets == [SystemTarget(true), HomeTarget] then Some(P.Both)
    else None
  }

  /** `From<SwitchArgs> for Switch`, as a value. */
  function SwitchOf(value: P.SwitchArgs): (s: Switch)
    ensures s.displayCommand == value.displayCommand && s.update == value.update
    ensures s.targets == Targets(value.target)
  {
    Switch(Targets(value.target), value.displayCommand, value.update)
  }

  /**
   * `From<SwitchArgs> for Switch`: pushes the targets onto a fresh vector one
   * at a time, then copies the two flags.
   */
  method SwitchFromArgs(value: P.SwitchArgs) returns (s: Switch)
    ensures value.target == P.Home ==> s.targets == [HomeTarget]
    ensures value.target.System? ==> s.targets == [SystemTarget(value.target.offline)]
    ensures value.target == P.Both ==> s.targets == [SystemTarget(true), HomeTarget]
    ensures s == SwitchOf(value)
  {
    var targets: seq<ToSwitch> := [];
    match value.target {
      case Home =>
        targets := targets + [HomeTarget];
      case System(offline) =>
        targets := targets + [SystemTarget(offline)];
      case Both =>
        targets := targets + [SystemTarget(true)];
        targets := targets + [HomeTarget];
    }
    s := Switch(targets, value.displayCommand, value.update);
  }

  /** The parsed switch arguments a `Switch` came from, if any: the inverse of `SwitchOf`. */
  function SwitchArgsOf(s: Switch): Option<P.SwitchArgs> {
    match TargetOf(s.targets)
    case None => None
    case Some(t) => Some(P.SwitchArgs(t, s.displayCommand, s.update))
  }

  /** `From<IdentityOptions> for Identity`. */
  function IdentityOf(value: P.IdentityOptions): (r: Identity)
    ensures r.SetIdentity? <==> value.SetIdentity?
    ensures IdentityOptionsOf(r) == value
  {
    match value
    case SetIdentity(identity) => SetIdentity(identity)
    case GetIdentity(raw) => GetIdentity(raw)
  }

  /** The inverse of `IdentityOf`. */
  function IdentityOptionsOf(r: Identity): P.IdentityOptions {
    match r
    case SetIdentity(identity) => P.SetIdentity(identity)
    case GetIdentity(raw) => P.GetIdentity(raw)
  }

  /** `From<PathOption> for ConfigPath`. */
  function ConfigPathOf(value: P.PathOption): (r: ConfigPath)
    ensures r.SetPath? <==> value.SetPath?
    ensures PathOptionOf(r) == value
  {
    match value
    case SetPath(path) => SetPath(path)
    case GetPath(raw) => GetPath(raw)
  }

  /** The inverse of `ConfigPathOf`. */
  function PathOptionOf(r: ConfigPath): P.PathOption {
    match r
    case SetPath(path) => P.SetPath(path)
    case GetPath(raw) => P.GetPath(raw)
  }

  /** `From<CLIArgs> for Task`: completions stay apart, everything else becomes a command. */
  function TaskOf(value: P.CliArgs): (t: Task)
    ensures t.Completion? <==> value.Completions?
    ensures value.Completions? ==> t == Completion(value.shell)
    ensures value.Logo? ==> t == Command(LogoOperation)
    ensures CliArgsOf(t) == Some(value)
  {
    match value
    case Switch(args) => Command(SwitchOperation(SwitchOf(args)))
    case Identity(operation) => Command(IdentityOperation(IdentityOf(operation)))
    case Path(operation) => Command(PathOperation(ConfigPathOf(operation)))
    case Logo => Command(LogoOperation)
    case Completions(shell) => Completion(shell)
  }

  /** The parsed command line a task came from, if any: the inverse of `TaskOf`. */
  function CliArgsOf(t: Task): Option<P.CliArgs> {
    match t
    case Completion(shell) => Some(P.Completions(shell))
    case Command(SwitchOperation(s)) =>
      (match SwitchArgsOf(s)
       case None => None
       case Some(args) => Some(P.Switch(args)))
    case Command(IdentityOperation(operation)) => Some(P.Identity(IdentityOptionsOf(operation)))
    case Command(PathOperation(operation)) => Some(P.Path(PathOptionOf(operation)))
    case Command(LogoOperation) => Some(P.Logo)
  }

  /** Distinct command lines give distinct tasks: the conversion loses nothing. */
  lemma TaskOfInjective(a: P.CliArgs, b: P.CliArgs)
    ensures TaskOf(a) == TaskOf(b) ==> a == b
  {
    if TaskOf(a) == TaskOf(b) {
      assert CliArgsOf(TaskOf(a)) == CliArgsOf(TaskOf(b));
    }
  }

  /** A switch requests a system rebuild exactly when its parsed target was `system` or `both`. */
  lemma SwitchesSystemIff(value: P.SwitchArgs)
    ensures (exists k :: 0 <= k < |SwitchOf(value).targets| && SwitchOf(value).targets[k].SystemTarget?)
        <==> !value.target.Home?
  {
    var ts := SwitchOf(value).targets;
    if !value.target.Home? {
      assert ts[0].SystemTarget?;
    }
  }
}
