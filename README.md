# system-manager, modelled in Dafny

system-manager is a small command-line tool that rebuilds a NixOS system
or a home-manager profile from a flake whose path and identity (the flake
output to build) it keeps in a configuration file. This project models its
core:

- **`switch`** (`src/lib.rs`). It validates the configured path, then issues
  a fixed, ordered list of shell commands:
  - for a system switch, a sudo pre-flight of two commands;
  - a flake-lock update, unless `no_update` is set;
  - the apply command, `nixos-rebuild` or `home-manager switch`, for
    `path#identity`.

  It stops at the first command that fails. The module also models the
  error taxonomy `Errors` and the configuration `Config` with its default.
- **The executor** (`src/command_builder.rs`). An `Executer` holds a display
  flag and an output writer. It runs each command:
  - through `echo` in display mode, or through `sh -c` in run mode;
  - with the child's output captured and written to the writer, or, when
    the writer is the terminal, streamed directly.

  Its errors distinguish a process that could not start, output that could
  not be written, and a command that exited with failure.
- **The option conversions** (`src/options/mod.rs`). These turn the parsed
  command line into the `Task` the program performs. Switching `both`
  targets expands into a system switch followed by a home switch.

The operating system is an oracle. A `World` maps each process invocation
(program and argument list) to either a spawn failure or the child's
standard output and success flag. The output writer is a `Sink` object of
one of three kinds:

- the terminal;
- a growable buffer, like `Vec<u8>`;
- a fixed-size buffer, like `&mut [u8]`, whose `write_all` fills the room
  left and then fails.

Modules:

- `Results`: `Option` and `Result`.
- `StdPath`: paths that may not be valid UTF-8.
- `Text`: the lines of echoed output, and Rust's `split_terminator`.
- `CommandBuilder`: `src/command_builder.rs`.
- `SystemManager`: `src/lib.rs`.
- `OptionsParsed`: the parsed command-line values of `src/options/parsed.rs`.
- `Options`: `src/options/mod.rs`.

`switch` is specified in two layers:

- `SwitchPlan` decides, as a pure function, either the path error or the
  exact commands to run.
- `RunAll` folds `CommandBuilder.Executed` (one `execute` call) over those
  commands, and stops at the first error.

The imperative `Switch`, `RunCommands` and `Executer.Execute` are proved
against these specifications. The properties of `switch` are proved as
lemmas about the two functions. The unit tests of `src/test.rs` are
restated as lemmas about the echoed output. They hold for every world in
which `echo` prints its argument.

## Model

| member | source | states |
|---|---|---|
| StdPath.ToStr | src/lib.rs:124 | `Path::to_str` yields text exactly for a UTF-8 path, and then that path's text |
| CommandBuilder.Written | src/command_builder.rs:65-67 | `write_all` succeeds unless a fixed buffer lacks room for a non-empty write; on success the sink holds old contents plus all bytes; on failure it holds old contents plus a strict prefix of the bytes; a fixed buffer never exceeds its capacity |
| CommandBuilder.Sink.constructor | src/test.rs:7 | a new sink of a given kind is empty and valid |
| CommandBuilder.Sink.WriteAll | src/command_builder.rs:65-67 | the writer's new contents and the success flag are exactly `Written` of its old contents, and its capacity invariant is kept |
| CommandBuilder.GenerateCommand | src/command_builder.rs:37-45 | the pre-configured process: `echo` in display mode, `sh -c` in run mode; its shape once the command is added is stated by `InvocationShape` |
| CommandBuilder.InvocationShape | src/command_builder.rs:37-45 | display mode starts `echo` with the command as its only argument; run mode starts `sh -c` with the command; the command is passed whole as the last argument |
| CommandBuilder.Executed | src/command_builder.rs:53-101 | one `execute` call of either implementation, as a function of the sink's old contents and the world; its outcomes are stated by `ExecutedOutcomes` and `ExecutedAppends` |
| CommandBuilder.ExecutedOutcomes | src/command_builder.rs:53-101 | `execute` succeeds iff the process started, its output reached the sink (when captured) and it exited successfully; a spawn failure is `ExecutionError` naming the command and leaves the sink alone; `PipeOutput` iff a captured write failed, whatever the exit status; `Failed(command)` iff the exit failed after the output was written; a terminal sink is never written |
| CommandBuilder.ExecutedAppends | src/command_builder.rs:65-67 | `execute` only appends to the sink, and a fixed buffer never overflows |
| CommandBuilder.Executer.constructor | src/command_builder.rs:32-34 | `Executer::new` stores the display flag and the writer, and nothing has been issued yet |
| CommandBuilder.Executer.Execute | src/command_builder.rs:53-101 | one `execute` records the command as issued, and its result and the sink's new contents are exactly `Executed` (specified by `ExecutedOutcomes`) |
| Text.SplitTerminator | src/test.rs:25 | `split_terminator('\n')`: every piece is a line, and joining the pieces with a newline after each gives back the text, plus a final newline when it lacked one |
| Text.SplitEchoed | src/test.rs:25 | splitting the output of echoing single-line commands at its line terminators gives back exactly those commands |
| SystemManager.DefaultConfig | src/lib.rs:71-78 | the default configuration has identity `undefined` and no path |
| SystemManager.SwitchPlan | src/lib.rs:117-146 | a missing path is `PathNotSet`; a non-UTF-8 path is `NotUTFPath`; otherwise a plan of two pre-flight commands (system only), one update (unless `no_update`) and one apply command |
| SystemManager.PlanIgnoresDisplayCommand | src/lib.rs:117-121 | the commands issued do not depend on the display flag of the arguments |
| SystemManager.DefaultConfigCannotSwitch | src/lib.rs:71-78 | a switch with the default configuration fails with `PathNotSet` before issuing anything |
| SystemManager.PreflightIffSystem | src/lib.rs:126-129 | the sudo notice and the sudo probe are issued iff the target is the system, and then first and second |
| SystemManager.UpdateIffNotNoUpdate | src/lib.rs:131-133 | the flake update is issued iff `no_update` is unset, right after the pre-flight and right before the apply command |
| SystemManager.LastIsApply | src/lib.rs:135-146 | the last command is the apply command for `path#identity` on the chosen target, and no earlier command equals the apply command of either target |
| SystemManager.PlanCommandsDistinct | src/lib.rs:126-146 | no command is issued twice in one switch |
| SystemManager.PlanHasNoNewlines | src/lib.rs:126-146 | with a single-line path and identity, every command is a single line |
| SystemManager.RunAll | src/lib.rs:126-147 | the chain of `execute(..)?` calls over a list of commands, stopping at the first error; stated by `RunIssuesPrefix`, `RunStopsAtFirstFailure`, `RunAppendsToSink` and `RunCommands` |
| SystemManager.RunIssuesPrefix | src/lib.rs:126-147 | a run issues a prefix of its commands; a successful run issues all of them; a failed run issued at least one |
| SystemManager.RunStopsAtFirstFailure | src/lib.rs:126-147 | when the first k commands succeed and command k fails, the run returns that command's error and issues nothing after it |
| SystemManager.StreamingLeavesSinkAlone | src/command_builder.rs:80-101 | a run on the terminal writer never changes the sink |
| SystemManager.RunAppendsToSink | src/lib.rs:126-147 | a run only appends to its sink, and a fixed buffer never overflows |
| SystemManager.DisplayRunEchoes | src/command_builder.rs:37-39 | in display mode with a growable buffer, a run succeeds, issues every command, and appends each command followed by a newline |
| SystemManager.Lift | src/lib.rs:58-59 | a command error becomes `Errors::CommandError` carrying it, and success stays success |
| SystemManager.DisplaySwitchShowsPlan | src/test.rs:5-45 | a display-mode switch into an empty buffer succeeds, and the lines of its output are exactly the planned commands, in order |
| SystemManager.RunCommands | src/lib.rs:126-146 | executing the commands one after another leaves exactly the result, sink contents and issued history of `RunAll` |
| SystemManager.Switch | src/lib.rs:111-148 | a path error is returned with nothing issued and the sink untouched; otherwise the result is the run's error, lifted, or success, and the sink and history are those of running the plan |
| SystemManager.SystemSwitchTestVector | src/test.rs:5-45 | a system switch with updating echoes the notice, the probe, the update and the system rebuild, exactly as the test expects |
| SystemManager.HomeSwitchTestVector | src/test.rs:85-117 | a home switch with updating echoes the update and the home-manager switch, exactly as the test expects |
| SystemManager.SystemNoUpdateTestVector | src/test.rs:69-82 | a system switch with the update off echoes the notice, the probe and the system rebuild, the three lines `system_switch_no_update` expects |
| SystemManager.HomeNoUpdateTestVector | src/test.rs:141-146 | a home switch with the update off echoes only the home-manager switch, the one line `home_switch_no_update` expects |
| SystemManager.NoUpdateTestsExpectOneLineLess | src/test.rs:47-83 | with `no_update` unset, as those two tests leave it, the switch still echoes the update line, which they do not expect |
| SystemManager.SudoNoticeText | src/lib.rs:127 | the sudo notice is exactly the source's literal |
| SystemManager.SudoProbeText | src/lib.rs:128 | the sudo probe is exactly the source's literal |
| Options.Targets | src/options/mod.rs:111-118 | every parsed target expands to one or two targets, and the expansion can be read back to the parsed target |
| Options.SwitchOf | src/options/mod.rs:107-126 | the switch keeps the display and update flags, and its targets are the expansion of the parsed target |
| Options.SwitchFromArgs | src/options/mod.rs:107-126 | pushing the targets gives `home` → Home; `system` → System with its offline flag; `both` → System (offline) then Home; the result equals `SwitchOf` |
| Options.IdentityOf | src/options/mod.rs:128-137 | set stays set and get stays get, and the conversion can be inverted |
| Options.ConfigPathOf | src/options/mod.rs:139-146 | set stays set and get stays get, and the conversion can be inverted |
| Options.TaskOf | src/options/mod.rs:81-105 | completions become a completion task for the same shell; everything else becomes a command; logo becomes the logo operation; the conversion can be inverted |
| Options.TaskOfInjective | src/options/mod.rs:81-105 | distinct command lines give distinct tasks |
| Options.SwitchesSystemIff | src/options/mod.rs:111-118 | a system target is requested iff the parsed target is `system` or `both` |

## Left out

- SystemManager.Switch: the source issues the commands as inline `execute(..)?` calls. The model computes the same list (`SwitchPlan`) and runs it with one loop (`RunCommands`). The order, the early return and the arguments are the same.
- The world is deterministic per invocation: one command text always meets the same outcome. Within one switch every command is distinct (`PlanCommandsDistinct`), so this loses nothing there.
- Bytes are modelled as characters. The UTF-8 check of the test output (`String::from_utf8`) is not modelled.
- `Path::to_str` is abstracted: a path is either text or non-UTF-8 bytes.
- `std::io::Error`, `app_dirs2::AppDirsError` and `serde_json::Error` are opaque payloads.
- Partial writes: a fixed buffer takes what fits and then fails. The actual byte counts of `write` calls inside `write_all` are not modelled.
- The child's standard input (`Stdio::piped()`) and the terminal I/O of the streaming `execute` are not modelled: only the exit status matters there.
- `get_or_create_config` and `write_config` (`src/lib.rs:83-109`): file-system and JSON I/O, outside the modelled core.
- `LOGO` and `APP_INFO`: constants without behaviour.
- The program entry (`src/main.rs`) is not part of this model. Besides configuration I/O and dispatch, it holds a second copy of the switch sequence (`src/main.rs:35-78`). That copy differs from `switch`:
  - it formats the identity with `{:?}` (`src/main.rs:45`), so its apply commands (`src/main.rs:69`, `:73`) carry the identity in quotes;
  - it runs each command through `execute_args`, which is not part of this model.
- `src/args.rs` is not part of this model: it is the command-line grammar (`Operations`, `SwitchTarget`) that clap fills in.
- Command-line parsing and `completions` in `src/options/mod.rs`: clap does that work. The parsed values are modelled as plain datatypes (`OptionsParsed`).

## Where the sources disagree

- `switch` (`src/lib.rs:131`) decides the update step by `no_update`. The unit tests `system_switch_no_update` and `home_switch_no_update` (`src/test.rs:47-83`, `119-147`) leave `no_update` false and expect no update line. The model follows the code; `NoUpdateTestsExpectOneLineLess` shows the extra line.
  `SystemNoUpdateTestVector` and `HomeNoUpdateTestVector` show that with the update off (`no_update` set) the output is exactly what those tests expect.
- `src/lib.rs:9` imports `args::SwitchArgs`, but `src/args.rs` declares no such type: its switch fields live in the variant `Operations::Switch` (`src/args.rs:25-36`), and its `SwitchTarget` has only `Home` and `System` (`src/args.rs:52-57`). `SystemManager.SwitchArgs` is therefore rebuilt from the destructuring at `src/lib.rs:117-121`: a target, the display flag and `no_update`.
- The tests build that `SwitchArgs` with an `update` field as well (`src/test.rs:14-19`), which the destructuring at `src/lib.rs:117-121` does not list. The parsed `SwitchArgs` of `src/options/parsed.rs:63-75` has `update` and no `no_update`. The conversion into `Options.Switch` carries `update`, and nothing in the modelled core consumes it.
- `src/main.rs:45` interpolates the identity with `{:?}`, so its apply commands differ from those of `switch` and of the tests by the quotes around the identity.

## Notes on the option conversions

- `both` (`src/options/parsed.rs:88`) carries no offline flag. Its expansion (`src/options/mod.rs:114-117`) is a system switch with `offline: true` followed by a home switch, and the model keeps that expansion.
