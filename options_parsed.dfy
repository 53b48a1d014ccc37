/**
 * The parsed command line of `options/parsed.rs`, as plain values: the input
 * to the conversions of `options/mod.rs`. The clap derive attributes that
 * fill these values from the command line are not part of this model.
 */
module OptionsParsed {
  import opened StdPath

  /** The shells `clap_complete` can generate completions for. */
  datatype Shell = Bash | Elvish | Fish | PowerShell | Zsh

  /** `CLIArgs`: the subcommand given on the command line. */
  datatype CliArgs =
    | Switch(args: SwitchArgs)
    | Identity(identityOperation: IdentityOptions)
    | Path(pathOperation: PathOption)
    | Logo
    | Completions(shell: Shell)

  /** `IdentityOptions`. */
  datatype IdentityOptions = SetIdentity(identity: string) | GetIdentity(raw: bool)

  /** `PathOption`. */
  datatype PathOption = SetPath(path: OsPath) | GetPath(raw: bool)

  /** `SwitchArgs`: the target and the `--display` and `--update` flags. */
  datatype SwitchArgs = SwitchArgs(target: SwitchTarget, displayCommand: bool, update: bool)

  /** `SwitchTarget`: `home`, `system [--offline]`, or `both`. */
  datatype SwitchTarget = Home | System(offline: bool) | Both
}
